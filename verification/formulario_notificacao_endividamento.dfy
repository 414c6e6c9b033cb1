/** The debt notification form: its validators read one entry per line. */
module FormularioNotificacaoEndividamento {
  import opened Texto
  import opened Validadores
  import opened FormularioDocumento

  /** `[x.strip() for x in campo.split('\n') if x.strip()]` */
  function EntradasPorLinha(campo: string): (r: seq<string>)
    ensures forall t :: t in r ==> Limpo(t) && '\n' !in t
  {
    var partes := Dividir(campo, '\n');
    LimparItensSemSeparador(partes, '\n');
    LimparItens(partes)
  }

  /** Clean entries written one per line are read back as they were. */
  lemma EntradasPorLinhaJuntar(itens: seq<string>)
    requires |itens| >= 1
    requires forall t :: t in itens ==> Limpo(t) && '\n' !in t
    ensures EntradasPorLinha(Juntar(itens, '\n')) == itens
  {
    forall k | 0 <= k < |itens| ensures '\n' !in itens[k] {
      assert itens[k] in itens;
    }
    DividirJuntar(itens, '\n');
    LimparItensLimpos(itens);
  }

  const MENSAGEM_EMAIL_LINHA: string := "E-mail inválido: "
  const MENSAGEM_WHATSAPP_LINHA: string := "WhatsApp inválido: "

  /** `NotificacaoEndividamentoForm.validate_emails`: each line is checked
      against the application's e-mail pattern. An empty field passes. */
  function ValidarEmailsPorLinha(campo: string): (r: Option<string>)
    ensures campo == [] ==> r.None?
    ensures r.None? <==> forall t :: t in EntradasPorLinha(campo) ==> ValidarEmail(t)
    ensures r.Some? ==> var itens := EntradasPorLinha(campo);
                        exists i :: 0 <= i < |itens| && !ValidarEmail(itens[i])
                                    && (forall j :: 0 <= j < i ==> ValidarEmail(itens[j]))
                                    && r.value == MENSAGEM_EMAIL_LINHA + itens[i]
  {
    if campo == [] then None else Validar(EntradasPorLinha(campo), ValidarEmail, MENSAGEM_EMAIL_LINHA)
  }

  /** `NotificacaoEndividamentoForm.validate_whatsapps`: each line must be a
      '+' and 10 to 15 digits. An empty field passes. */
  function ValidarWhatsappsPorLinha(campo: string): (r: Option<string>)
    ensures campo == [] ==> r.None?
    ensures r.None? <==> forall t :: t in EntradasPorLinha(campo) ==> NumeroInternacional(t)
    ensures r.Some? ==> var itens := EntradasPorLinha(campo);
                        exists i :: 0 <= i < |itens| && !NumeroInternacional(itens[i])
                                    && (forall j :: 0 <= j < i ==> NumeroInternacional(itens[j]))
                                    && r.value == MENSAGEM_WHATSAPP_LINHA + itens[i]
  {
    if campo == [] then None
    else
      var itens := EntradasPorLinha(campo);
      forall t | t in itens
        ensures WhatsappValido(t) <==> NumeroInternacional(t)
      {
        WhatsappEntrada(t);
      }
      Validar(itens, WhatsappValido, MENSAGEM_WHATSAPP_LINHA)
  }

  /** Every address this form accepts passes the document form's looser
      pattern too. */
  lemma EmailLinhaAceitoNoDocumento(t: string)
    requires Limpo(t) && ValidarEmail(t)
    ensures EmailSimples(t)
  {
    assert EhEspaco('\n');
    assert ConfereEmail(t);
    var i := PrimeiraOcorrencia(t, '@').value;
    var k := UltimaOcorrencia(t, '.').value;
    assert CasaEmailEm(t, i, k);
    CasaEmailArrobaUnica(t, i, k);
  }
}
