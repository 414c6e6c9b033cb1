/** The debt-maturity reminders: a daily sweep over the debts with an active
    notification setting that sends one reminder when the days left match one
    of seven fixed intervals, and a send history that keeps a reminder from
    being sent twice once it went out. */
module NotificacaoEndividamento {
  import opened Texto
  import opened Documentos
  import opened Canais
  import opened ServicoEmail

  // ---------------------------------------------------------------------------
  // The seven intervals

  /** The keys of `INTERVALOS_NOTIFICACAO`. */
  datatype TipoNotificacao = SeisMeses | TresMeses | TrintaDias | QuinzeDias | SeteDias | TresDias | UmDia
  {
    /** The label stored in the history. */
    function Rotulo(): string {
      match this
      case SeisMeses => "6_meses"
      case TresMeses => "3_meses"
      case TrintaDias => "30_dias"
      case QuinzeDias => "15_dias"
      case SeteDias => "7_dias"
      case TresDias => "3_dias"
      case UmDia => "1_dia"
    }

    /** The days before the final due date at which the reminder goes out. */
    function Dias(): nat {
      match this
      case SeisMeses => 180
      case TresMeses => 90
      case TrintaDias => 30
      case QuinzeDias => 15
      case SeteDias => 7
      case TresDias => 3
      case UmDia => 1
    }

    /** The place of the key in the table, which is the order the sweep tries them. */
    function Posicao(): nat {
      match this
      case SeisMeses => 0
      case TresMeses => 1
      case TrintaDias => 2
      case QuinzeDias => 3
      case SeteDias => 4
      case TresDias => 5
      case UmDia => 6
    }
  }

  /** The table in its declaration order. */
  const TIPOS: seq<TipoNotificacao> := [SeisMeses, TresMeses, TrintaDias, QuinzeDias, SeteDias, TresDias, UmDia]

  /** Every key is in the table once, at its place. */
  lemma TiposPosicao(t: TipoNotificacao)
    ensures t.Posicao() < |TIPOS| && TIPOS[t.Posicao()] == t
  {
  }

  lemma PosicaoNaTabela(i: nat)
    requires i < |TIPOS|
    ensures TIPOS[i].Posicao() == i
  {
  }

  /** No two keys share an interval or a label. */
  lemma TiposDistintos(a: TipoNotificacao, b: TipoNotificacao)
    ensures a.Dias() == b.Dias() ==> a == b
    ensures a.Rotulo() == b.Rotulo() ==> a == b
  {
  }

  /** The key whose interval is exactly `dias`, if any. */
  function TipoPara(dias: int): (r: Option<TipoNotificacao>)
    ensures r.Some? ==> r.value.Dias() == dias
    ensures r.None? <==> forall t: TipoNotificacao :: t.Dias() != dias
  {
    if dias == 180 then Some(SeisMeses)
    else if dias == 90 then Some(TresMeses)
    else if dias == 30 then Some(TrintaDias)
    else if dias == 15 then Some(QuinzeDias)
    else if dias == 7 then Some(SeteDias)
    else if dias == 3 then Some(TresDias)
    else if dias == 1 then Some(UmDia)
    else
      assert forall t: TipoNotificacao :: t.Dias() != dias;
      None
  }

  /** A key fires on a day exactly when it is the key of that day's interval. */
  lemma TipoParaUnico(t: TipoNotificacao, dias: int)
    ensures t.Dias() == dias <==> TipoPara(dias) == Some(t)
  {
    if TipoPara(dias).Some? {
      TiposDistintos(t, TipoPara(dias).value);
    }
  }

  // ---------------------------------------------------------------------------
  // Period label, subject, unpaid amount

  /** The period named in the reminder's subject and texts. */
  function Periodo(dias: int): string {
    if dias >= 30 then
      if dias == 180 then "6 meses"
      else if dias == 90 then "3 meses"
      else IntParaTexto(dias) + " dias"
    else IntParaTexto(dias) + " dia" + (if dias > 1 then "s" else "")
  }

  /** The label of each interval. */
  lemma PeriodosDosTipos()
    ensures Periodo(SeisMeses.Dias()) == "6 meses"
    ensures Periodo(TresMeses.Dias()) == "3 meses"
    ensures Periodo(TrintaDias.Dias()) == "30 dias"
    ensures Periodo(QuinzeDias.Dias()) == "15 dias"
    ensures Periodo(SeteDias.Dias()) == "7 dias"
    ensures Periodo(TresDias.Dias()) == "3 dias"
    ensures Periodo(UmDia.Dias()) == "1 dia"
  {
    PeriodoTrinta();
    PeriodoQuinze();
    PeriodoUnidades();
  }

  lemma PeriodoTrinta()
    ensures Periodo(30) == "30 dias"
  {
    assert NatParaTexto(30) == NatParaTexto(3) + [CharDigito(0)];
    assert NatParaTexto(30) == "30";
  }

  lemma PeriodoQuinze()
    ensures Periodo(15) == "15 dias"
  {
    assert NatParaTexto(15) == NatParaTexto(1) + [CharDigito(5)];
    assert NatParaTexto(15) == "15";
  }

  lemma PeriodoUnidades()
    ensures Periodo(7) == "7 dias" && Periodo(3) == "3 dias" && Periodo(1) == "1 dia"
  {
    assert IntParaTexto(7) == "7" && IntParaTexto(3) == "3" && IntParaTexto(1) == "1";
  }

  /** Distinct intervals are named differently. */
  lemma PeriodosDistintos(a: TipoNotificacao, b: TipoNotificacao)
    requires Periodo(a.Dias()) == Periodo(b.Dias())
    ensures a == b
  {
    PeriodosDosTipos();
  }

  /** `Lembrete: Endividamento vence em {periodo} - {banco}` */
  function AssuntoLembrete(periodo: string, banco: string): string {
    "Lembrete: Endividamento vence em " + periodo + " - " + banco
  }

  /** An installment, its value in cents. */
  datatype Parcela = Parcela(valorCentavos: int, pago: bool)

  /** The sum of the values of the unpaid installments. */
  function ValorPendente(parcelas: seq<Parcela>): int {
    if parcelas == [] then 0
    else
      var ultima := parcelas[|parcelas| - 1];
      ValorPendente(parcelas[..|parcelas| - 1]) + (if ultima.pago then 0 else ultima.valorCentavos)
  }

  lemma {:induction false} ValorPendenteConcat(a: seq<Parcela>, b: seq<Parcela>)
    ensures ValorPendente(a + b) == ValorPendente(a) + ValorPendente(b)
  {
    if b == [] {
      assert a + b == a;
    } else {
      assert (a + b)[..|a + b| - 1] == a + b[..|b| - 1];
      assert (a + b)[|a + b| - 1] == b[|b| - 1];
      ValorPendenteConcat(a, b[..|b| - 1]);
    }
  }

  /** Paying one installment lowers the unpaid amount by its value, and paying
      it again changes nothing. */
  lemma PagarParcela(parcelas: seq<Parcela>, i: nat)
    requires i < |parcelas|
    ensures ValorPendente(parcelas[i := parcelas[i].(pago := true)])
            == ValorPendente(parcelas) - (if parcelas[i].pago then 0 else parcelas[i].valorCentavos)
  {
    var a, b := parcelas[..i], parcelas[i + 1..];
    var p := parcelas[i];
    assert parcelas == a + [p] + b;
    assert parcelas[i := p.(pago := true)] == a + [p.(pago := true)] + b;
    ValorPendenteConcat(a + [p], b);
    ValorPendenteConcat(a, [p]);
    ValorPendenteConcat(a + [p.(pago := true)], b);
    ValorPendenteConcat(a, [p.(pago := true)]);
    assert [p][..0] == [];
    assert [p.(pago := true)][..0] == [];
  }

  /** Nothing is pending once every installment is paid. */
  lemma {:induction false} ValorPendenteQuitado(parcelas: seq<Parcela>)
    requires forall i :: 0 <= i < |parcelas| ==> parcelas[i].pago
    ensures ValorPendente(parcelas) == 0
  {
    if parcelas != [] {
      ValorPendenteQuitado(parcelas[..|parcelas| - 1]);
    }
  }

  // ---------------------------------------------------------------------------
  // Stored rows

  /** The fields of a debt the reminders read. */
  datatype Endividamento = Endividamento(
    id: int,
    banco: string,
    numeroProposta: string,
    vencimentoFinal: int,
    parcelas: seq<Parcela>)

  /** A `NotificacaoEndividamento` row: the JSON lists as stored. */
  datatype ConfigNotificacao = ConfigNotificacao(
    endividamentoId: int,
    emails: Guardado<string>,
    whatsapps: Guardado<string>,
    ativo: bool,
    notificarWhatsapp: bool)

  /** A `HistoricoNotificacao` row. */
  datatype Registro = Registro(
    endividamentoId: int,
    tipo: string,
    emails: seq<string>,
    whatsapps: seq<string>,
    sucesso: bool,
    erro: Option<string>)

  /** The rendering of the HTML body and of the WhatsApp text from the debt,
      the period label and the unpaid amount in cents. */
  datatype Redacao = Redacao(
    corpoEmail: (Endividamento, string, int) -> string,
    mensagemWhatsapp: (Endividamento, string, int) -> string)

  /** `json.loads(texto) if texto else []`; `None` when the text does not decode. */
  function Decodificar(g: Guardado<string>): (r: Option<seq<string>>)
    ensures r.None? <==> g.Ilegivel?
    ensures r.Some? ==> r.value == Ler(g)
  {
    match g
    case NadaGuardado => Some([])
    case Lista(itens) => Some(itens)
    case Ilegivel => None
  }

  /** `NotificacaoEndividamento.query.filter_by(endividamento_id=id, ativo=True).first()` */
  function PrimeiraConfigAtiva(configs: seq<ConfigNotificacao>, id: int): (r: Option<ConfigNotificacao>)
    ensures r.Some? ==> r.value in configs && r.value.endividamentoId == id && r.value.ativo
    ensures r.None? <==> forall c :: c in configs ==> !(c.endividamentoId == id && c.ativo)
  {
    if configs == [] then None
    else if configs[0].endividamentoId == id && configs[0].ativo then Some(configs[0])
    else
      assert forall c :: c in configs ==> c == configs[0] || c in configs[1..];
      PrimeiraConfigAtiva(configs[1..], id)
  }

  /** The sweep's query: the debts with an active setting whose final due date
      is after today, in table order. */
  function Selecao(endividamentos: seq<Endividamento>, configs: seq<ConfigNotificacao>, hoje: int): (r: seq<Endividamento>)
    ensures |r| <= |endividamentos|
    ensures forall e :: e in r ==> e in endividamentos
  {
    if endividamentos == [] then []
    else
      var ultimo := endividamentos[|endividamentos| - 1];
      Selecao(endividamentos[..|endividamentos| - 1], configs, hoje)
      + (if ultimo.vencimentoFinal > hoje && PrimeiraConfigAtiva(configs, ultimo.id).Some? then [ultimo] else [])
  }

  /** A debt is swept exactly when it is in the table, is still to fall due
      and has an active setting. */
  lemma {:induction false} SelecaoMembros(endividamentos: seq<Endividamento>, configs: seq<ConfigNotificacao>,
                                          hoje: int, e: Endividamento)
    ensures e in Selecao(endividamentos, configs, hoje)
            <==> e in endividamentos && e.vencimentoFinal > hoje
                 && exists c :: c in configs && c.endividamentoId == e.id && c.ativo
  {
    if endividamentos != [] {
      var inicio := endividamentos[..|endividamentos| - 1];
      SelecaoMembros(inicio, configs, hoje, e);
      assert endividamentos == inicio + [endividamentos[|endividamentos| - 1]];
    }
  }

  // ---------------------------------------------------------------------------
  // The history

  /** `_ja_foi_enviada`: a successful record with this debt and label exists. */
  function JaFoiEnviada(historico: seq<Registro>, id: int, tipo: string): bool {
    if historico == [] then false
    else
      var ultimo := historico[|historico| - 1];
      JaFoiEnviada(historico[..|historico| - 1], id, tipo)
      || (ultimo.endividamentoId == id && ultimo.tipo == tipo && ultimo.sucesso)
  }

  /** The same, as a search over the records. */
  lemma {:induction false} JaFoiEnviadaExiste(historico: seq<Registro>, id: int, tipo: string)
    ensures JaFoiEnviada(historico, id, tipo)
            <==> exists i :: 0 <= i < |historico| && historico[i].endividamentoId == id
                             && historico[i].tipo == tipo && historico[i].sucesso
  {
    if historico != [] {
      var inicio := historico[..|historico| - 1];
      JaFoiEnviadaExiste(inicio, id, tipo);
      if JaFoiEnviada(inicio, id, tipo) {
        var i :| 0 <= i < |inicio| && inicio[i].endividamentoId == id && inicio[i].tipo == tipo && inicio[i].sucesso;
        assert historico[i] == inicio[i];
      }
      if exists i :: 0 <= i < |historico| && historico[i].endividamentoId == id
                     && historico[i].tipo == tipo && historico[i].sucesso {
        var i :| 0 <= i < |historico| && historico[i].endividamentoId == id
                 && historico[i].tipo == tipo && historico[i].sucesso;
        if i < |inicio| {
          assert inicio[i] == historico[i];
        }
      }
    }
  }

  lemma JaFoiEnviadaAnexar(historico: seq<Registro>, r: Registro, id: int, tipo: string)
    ensures JaFoiEnviada(historico + [r], id, tipo)
            == (JaFoiEnviada(historico, id, tipo) || (r.endividamentoId == id && r.tipo == tipo && r.sucesso))
  {
    assert (historico + [r])[..|historico|] == historico;
  }

  /** A failed attempt never keeps a later one from being sent. */
  lemma FalhaNaoSuprime(historico: seq<Registro>, r: Registro, id: int, tipo: string)
    requires !r.sucesso
    ensures JaFoiEnviada(historico + [r], id, tipo) == JaFoiEnviada(historico, id, tipo)
  {
    JaFoiEnviadaAnexar(historico, r, id, tipo);
  }

  /** Once sent, always sent: later records never undo a success. */
  lemma {:induction false} JaFoiEnviadaMonotona(historico: seq<Registro>, novos: seq<Registro>, id: int, tipo: string)
    requires JaFoiEnviada(historico, id, tipo)
    ensures JaFoiEnviada(historico + novos, id, tipo)
  {
    if novos == [] {
      assert historico + novos == historico;
    } else {
      var inicio := novos[..|novos| - 1];
      JaFoiEnviadaMonotona(historico, inicio, id, tipo);
      assert historico + novos == (historico + inicio) + [novos[|novos| - 1]];
      JaFoiEnviadaAnexar(historico + inicio, novos[|novos| - 1], id, tipo);
    }
  }

  /** At most one successful record per debt and label. */
  predicate UmSucessoPorChave(historico: seq<Registro>) {
    forall i, j :: 0 <= i < j < |historico| && historico[i].sucesso && historico[j].sucesso
      ==> historico[i].endividamentoId != historico[j].endividamentoId || historico[i].tipo != historico[j].tipo
  }

  /** A failed record keeps the history at one success per key, and so does a
      successful one whose key had no success yet. */
  lemma PreservaUmSucesso(historico: seq<Registro>, r: Registro)
    requires UmSucessoPorChave(historico)
    requires !r.sucesso || !JaFoiEnviada(historico, r.endividamentoId, r.tipo)
    ensures UmSucessoPorChave(historico + [r])
  {
    JaFoiEnviadaExiste(historico, r.endividamentoId, r.tipo);
    var h := historico + [r];
    forall i, j | 0 <= i < j < |h| && h[i].sucesso && h[j].sucesso
      ensures h[i].endividamentoId != h[j].endividamentoId || h[i].tipo != h[j].tipo
    {
      if j == |historico| {
        assert h[i] == historico[i];
      } else {
        assert h[i] == historico[i] && h[j] == historico[j];
      }
    }
  }

  // ---------------------------------------------------------------------------
  // The channels of one reminder

  /** What `all(send_whatsapp_message(n, mensagem) for n in numeros)` leaves
      in the log: the numbers in order, each with the message, stopping right
      after the first one that failed. */
  predicate TentativaTodos(numeros: seq<string>, mensagem: string, envios: seq<Envio>) {
    TentativaParcial(numeros, mensagem, envios)
    && (|envios| < |numeros| ==> envios != [] && !envios[|envios| - 1].entregue)
  }

  /** The attempts so far: the first numbers in order, each with the message,
      all but the latest one delivered. */
  predicate TentativaParcial(numeros: seq<string>, mensagem: string, envios: seq<Envio>) {
    |envios| <= |numeros|
    && (forall i :: 0 <= i < |envios| ==> envios[i].pedido == Whatsapp(numeros[i], mensagem))
    && (forall i :: 0 <= i < |envios| - 1 ==> envios[i].entregue)
  }

  predicate TodosEntregues(envios: seq<Envio>) {
    forall i :: 0 <= i < |envios| ==> envios[i].entregue
  }

  /** The `all()` succeeds exactly when every number was tried and took the
      message. */
  lemma TentativaSucesso(numeros: seq<string>, mensagem: string, envios: seq<Envio>)
    requires TentativaTodos(numeros, mensagem, envios)
    ensures |envios| == |numeros| && TodosEntregues(envios)
            <==> forall k :: 0 <= k < |numeros| ==> k < |envios| && envios[k] == Envio(Whatsapp(numeros[k], mensagem), true)
  {
    if forall k :: 0 <= k < |numeros| ==> k < |envios| && envios[k] == Envio(Whatsapp(numeros[k], mensagem), true) {
      assert |envios| == |numeros|;
    }
  }

  /** What one reminder leaves in the log, `novos`, and what it reports: the
      e-mail session first (when there are addresses and the settings are
      complete), then the WhatsApp attempts (when the flag is set and there
      are numbers); it succeeded when the e-mail was accepted or every
      WhatsApp number took the message. */
  predicate Disparo(config: ConfigEmail, emails: seq<string>, assunto: string, corpo: string,
                    notificarWhatsapp: bool, whatsapps: seq<string>, mensagem: string,
                    novos: seq<Envio>, sucesso: bool)
  {
    var email := if emails != [] then PedidosEmail(config, emails, assunto, corpo) else [];
    var m := |email|;
    var usaWhatsapp := notificarWhatsapp && whatsapps != [];
    m <= |novos|
    && Pedidos(novos[..m]) == email
    && (usaWhatsapp ==> TentativaTodos(whatsapps, mensagem, novos[m..]))
    && (!usaWhatsapp ==> novos[m..] == [])
    && sucesso == ((m == 1 && novos[0].entregue)
                   || (usaWhatsapp && |novos| - m == |whatsapps| && TodosEntregues(novos[m..])))
  }

  /** Without an address and without WhatsApp nothing is sent and the
      reminder fails. */
  lemma DisparoSemCanal(config: ConfigEmail, assunto: string, corpo: string,
                        notificarWhatsapp: bool, whatsapps: seq<string>, mensagem: string,
                        novos: seq<Envio>, sucesso: bool)
    requires Disparo(config, [], assunto, corpo, notificarWhatsapp, whatsapps, mensagem, novos, sucesso)
    requires !notificarWhatsapp || whatsapps == []
    ensures novos == [] && !sucesso
  {
    assert novos == novos[0..];
  }

  /** A WhatsApp message is only sent when the flag is set, and an e-mail only
      when there are addresses. */
  lemma DisparoCanais(config: ConfigEmail, emails: seq<string>, assunto: string, corpo: string,
                      notificarWhatsapp: bool, whatsapps: seq<string>, mensagem: string,
                      novos: seq<Envio>, sucesso: bool, k: nat)
    requires Disparo(config, emails, assunto, corpo, notificarWhatsapp, whatsapps, mensagem, novos, sucesso)
    requires k < |novos|
    ensures novos[k].pedido.Email? ==> emails != [] && novos[k].pedido == Email(emails, assunto, corpo)
    ensures novos[k].pedido.Whatsapp? ==>
              notificarWhatsapp && novos[k].pedido.numero in whatsapps && novos[k].pedido.mensagem == mensagem
  {
    var m := |if emails != [] then PedidosEmail(config, emails, assunto, corpo) else []|;
    if k < m {
      assert novos[k] == novos[..m][k];
    } else {
      assert novos[k] == novos[m..][k - m];
    }
  }


  /** The e-mail step followed by the WhatsApp step is a `Disparo`. */
  lemma DisparoComposto(config: ConfigEmail, emails: seq<string>, assunto: string, corpo: string,
                        notificarWhatsapp: bool, whatsapps: seq<string>, mensagem: string,
                        antes: seq<Envio>, meio: seq<Envio>, depois: seq<Envio>,
                        sucessoEmail: bool, sucessoWhatsapp: bool)
    requires emails == [] || !ConfigCompleta(config) ==> meio == antes && !sucessoEmail
    requires emails != [] && ConfigCompleta(config) ==>
               meio == antes + [Envio(Email(emails, assunto, corpo), sucessoEmail)]
    requires notificarWhatsapp && whatsapps != [] ==>
               |meio| <= |depois| && depois[..|meio|] == meio
               && TentativaTodos(whatsapps, mensagem, depois[|meio|..])
               && sucessoWhatsapp == (|depois| - |meio| == |whatsapps| && TodosEntregues(depois[|meio|..]))
    requires !(notificarWhatsapp && whatsapps != []) ==> depois == meio && !sucessoWhatsapp
    ensures |antes| <= |depois| && depois[..|antes|] == antes
    ensures Disparo(config, emails, assunto, corpo, notificarWhatsapp, whatsapps, mensagem,
                    depois[|antes|..], sucessoEmail || sucessoWhatsapp)
  {
    var novos := depois[|antes|..];
    if emails != [] && ConfigCompleta(config) {
      var enviado := Envio(Email(emails, assunto, corpo), sucessoEmail);
      assert novos[..1] == [enviado];
      assert Pedidos(novos[..1]) == [enviado.pedido];
      assert novos[1..] == depois[|meio|..];
    } else {
      assert novos[..0] == [];
      assert Pedidos(novos[..0]) == [];
      assert novos[0..] == depois[|meio|..];
    }
  }

  /** `all(send_whatsapp_message(numero, mensagem) for numero in numeros)`:
      the numbers in order until one fails. */
  method EnviarTodos(canal: Transporte, numeros: seq<string>, mensagem: string) returns (ok: bool)
    modifies canal
    ensures |old(canal.envios)| <= |canal.envios| && canal.envios[..|old(canal.envios)|] == old(canal.envios)
    ensures TentativaTodos(numeros, mensagem, canal.envios[|old(canal.envios)|..])
    ensures ok == (|canal.envios| - |old(canal.envios)| == |numeros| && TodosEntregues(canal.envios[|old(canal.envios)|..]))
  {
    ghost var antes := canal.envios;
    ghost var feitos: seq<Envio> := [];
    ok := true;
    var i := 0;
    while i < |numeros| && ok
      invariant 0 <= i <= |numeros|
      invariant canal.envios == antes + feitos && |feitos| == i
      invariant TentativaParcial(numeros, mensagem, feitos)
      invariant ok == TodosEntregues(feitos)
      invariant !ok ==> i > 0
    {
      var entregue := canal.EnviarWhatsapp(numeros[i], mensagem);
      feitos := feitos + [Envio(Whatsapp(numeros[i], mensagem), entregue)];
      ok := entregue;
      i := i + 1;
    }
    assert canal.envios[..|antes|] == antes;
    assert canal.envios[|antes|..] == feitos;
  }

  /** The channel part of one reminder: the e-mail when there are addresses,
      then WhatsApp when the flag is set and there are numbers. */
  method DispararCanais(canal: Transporte, config: ConfigEmail, emails: seq<string>, assunto: string, corpo: string,
                        notificarWhatsapp: bool, whatsapps: seq<string>, mensagem: string)
    returns (sucesso: bool)
    modifies canal
    ensures |old(canal.envios)| <= |canal.envios| && canal.envios[..|old(canal.envios)|] == old(canal.envios)
    ensures Disparo(config, emails, assunto, corpo, notificarWhatsapp, whatsapps, mensagem,
                    canal.envios[|old(canal.envios)|..], sucesso)
  {
    ghost var antes := canal.envios;
    var sucessoEmail, sucessoWhatsapp := false, false;
    if emails != [] {
      sucessoEmail := EnviarEmail(canal, config, emails, assunto, corpo);
    }
    ghost var meio := canal.envios;
    if notificarWhatsapp && whatsapps != [] {
      sucessoWhatsapp := EnviarTodos(canal, whatsapps, mensagem);
    }
    sucesso := sucessoEmail || sucessoWhatsapp;
    DisparoComposto(config, emails, assunto, corpo, notificarWhatsapp, whatsapps, mensagem,
                    antes, meio, canal.envios, sucessoEmail, sucessoWhatsapp);
  }

  /** The history after one attempt: unchanged, or one more record for this
      debt and label with this outcome. */
  predicate Acrescimo(antes: seq<Registro>, depois: seq<Registro>, id: int, tipo: string, sucesso: bool) {
    depois == antes
    || (|depois| == |antes| + 1 && depois[..|antes|] == antes
        && depois[|antes|].endividamentoId == id && depois[|antes|].tipo == tipo
        && depois[|antes|].sucesso == sucesso)
  }

  /** An attempt keeps the history at one success per key when it could only
      succeed for a key that had no success yet. */
  lemma AcrescimoPreserva(antes: seq<Registro>, depois: seq<Registro>, id: int, tipo: string, sucesso: bool)
    requires UmSucessoPorChave(antes)
    requires Acrescimo(antes, depois, id, tipo, sucesso)
    requires !sucesso || !JaFoiEnviada(antes, id, tipo)
    ensures UmSucessoPorChave(depois)
  {
    if depois != antes {
      PreservaUmSucesso(antes, depois[|antes|]);
      assert depois == antes + [depois[|antes|]];
    }
  }

  // ---------------------------------------------------------------------------
  // The sweep, step by step

  /** The history and the channel log together. */
  datatype Estado = Estado(historico: seq<Registro>, envios: seq<Envio>)

  /** The debt has a reminder due today that the history does not yet record
      as sent. */
  predicate Pendente(historico: seq<Registro>, e: Endividamento, hoje: int) {
    var alvo := TipoPara(e.vencimentoFinal - hoje);
    alvo.Some? && !JaFoiEnviada(historico, e.id, alvo.value.Rotulo())
  }

  /** What a sweep runs against: the mail settings of the e-mail service,
      the notification settings and the texts. */
  datatype Ambiente = Ambiente(emailConfig: ConfigEmail, configs: seq<ConfigNotificacao>, redacao: Redacao)

  /** One `_enviar_notificacao(e, t)` call taking the history and the log from
      `antes` to `depois`, `sucesso` its return value: at most one record, for
      the debt and the label, successful exactly when the call succeeded; the
      log only grows. Without an active setting nothing changes; a stored
      list that does not decode sends nothing and writes, if anything, a
      failure record with empty lists and an error text; otherwise the new
      log entries are the e-mail and WhatsApp attempts of `Disparo` and the
      record, if written, carries the lists and no error. */
  predicate Lembrete(amb: Ambiente, e: Endividamento, t: TipoNotificacao, antes: Estado, depois: Estado,
                     sucesso: bool)
  {
    var config := PrimeiraConfigAtiva(amb.configs, e.id);
    Acrescimo(antes.historico, depois.historico, e.id, t.Rotulo(), sucesso)
    && |antes.envios| <= |depois.envios| && depois.envios[..|antes.envios|] == antes.envios
    && (config.None? ==> !sucesso && depois == antes)
    && (config.Some? && (Decodificar(config.value.emails).None? || Decodificar(config.value.whatsapps).None?) ==>
          !sucesso && depois.envios == antes.envios
          && (depois.historico == antes.historico
              || (depois.historico[|antes.historico|].emails == []
                  && depois.historico[|antes.historico|].whatsapps == []
                  && depois.historico[|antes.historico|].erro.Some?)))
    && (config.Some? && Decodificar(config.value.emails).Some? && Decodificar(config.value.whatsapps).Some? ==>
          var c := config.value;
          var periodo := Periodo(t.Dias());
          var pendente := ValorPendente(e.parcelas);
          Disparo(amb.emailConfig, Ler(c.emails), AssuntoLembrete(periodo, e.banco),
                  amb.redacao.corpoEmail(e, periodo, pendente),
                  c.notificarWhatsapp, Ler(c.whatsapps), amb.redacao.mensagemWhatsapp(e, periodo, pendente),
                  depois.envios[|antes.envios|..], sucesso)
          && (depois.historico == antes.historico
              || (depois.historico[|antes.historico|].emails == Ler(c.emails)
                  && depois.historico[|antes.historico|].whatsapps == Ler(c.whatsapps)
                  && depois.historico[|antes.historico|].erro.None?)))
  }

  /** Without an active setting the attempt fails and changes nothing. */
  lemma LembreteSemConfig(amb: Ambiente, e: Endividamento, t: TipoNotificacao, s: Estado)
    requires PrimeiraConfigAtiva(amb.configs, e.id).None?
    ensures Lembrete(amb, e, t, s, s, false)
  {
  }

  /** A stored list that does not decode: nothing sent, at most a failure
      record with empty lists and the error text. */
  lemma LembreteIlegivel(amb: Ambiente, e: Endividamento, t: TipoNotificacao, antes: Estado, depois: Estado,
                         erro: string)
    requires PrimeiraConfigAtiva(amb.configs, e.id).Some?
    requires Decodificar(PrimeiraConfigAtiva(amb.configs, e.id).value.emails).None?
             || Decodificar(PrimeiraConfigAtiva(amb.configs, e.id).value.whatsapps).None?
    requires |erro| > 0 && depois.envios == antes.envios
    requires depois.historico == antes.historico
             || depois.historico == antes.historico + [Registro(e.id, t.Rotulo(), [], [], false, Some(erro))]
    ensures Lembrete(amb, e, t, antes, depois, false)
  {
  }

  /** Both lists decode: the channels ran and at most one record with the
      lists and the outcome was written. */
  lemma LembreteDisparado(amb: Ambiente, e: Endividamento, t: TipoNotificacao, antes: Estado, depois: Estado,
                          sucesso: bool)
    requires PrimeiraConfigAtiva(amb.configs, e.id).Some?
    requires var c := PrimeiraConfigAtiva(amb.configs, e.id).value;
             Decodificar(c.emails).Some? && Decodificar(c.whatsapps).Some?
    requires |antes.envios| <= |depois.envios| && depois.envios[..|antes.envios|] == antes.envios
    requires var c := PrimeiraConfigAtiva(amb.configs, e.id).value;
             var periodo := Periodo(t.Dias());
             var pendente := ValorPendente(e.parcelas);
             Disparo(amb.emailConfig, Ler(c.emails), AssuntoLembrete(periodo, e.banco),
                     amb.redacao.corpoEmail(e, periodo, pendente),
                     c.notificarWhatsapp, Ler(c.whatsapps), amb.redacao.mensagemWhatsapp(e, periodo, pendente),
                     depois.envios[|antes.envios|..], sucesso)
    requires var c := PrimeiraConfigAtiva(amb.configs, e.id).value;
             depois.historico == antes.historico
             || depois.historico == antes.historico + [Registro(e.id, t.Rotulo(), Ler(c.emails), Ler(c.whatsapps), sucesso, None)]
    ensures Lembrete(amb, e, t, antes, depois, sucesso)
  {
  }

  /** An attempt for a reminder not yet sent keeps at most one success per key. */
  lemma LembretePreserva(amb: Ambiente, e: Endividamento, t: TipoNotificacao, antes: Estado, depois: Estado,
                         sucesso: bool)
    requires UmSucessoPorChave(antes.historico)
    requires Lembrete(amb, e, t, antes, depois, sucesso)
    requires !JaFoiEnviada(antes.historico, e.id, t.Rotulo())
    ensures UmSucessoPorChave(depois.historico)
  {
    AcrescimoPreserva(antes.historico, depois.historico, e.id, t.Rotulo(), sucesso);
  }

  /** One `_processar_endividamento` call, `n` its return value: a debt with
      nothing pending leaves history and log as they were and counts 0;
      otherwise the reminder for today's label is attempted (`Lembrete`) and
      the call counts 1 exactly when the attempt succeeded. */
  predicate Etapa(amb: Ambiente, antes: Estado, depois: Estado, e: Endividamento, hoje: int, n: nat) {
    n <= 1
    && (!Pendente(antes.historico, e, hoje) ==> n == 0 && depois == antes)
    && (Pendente(antes.historico, e, hoje) ==>
          Lembrete(amb, e, TipoPara(e.vencimentoFinal - hoje).value, antes, depois, n == 1))
  }

  /** The loop of `_processar_endividamento` after looking at the first `i`
      keys: as long as the matching key (if any) was not reached, or its
      label already had a success when the call began, nothing happened;
      once it was reached, its reminder was attempted and the count is 1
      exactly when the attempt succeeded. */
  predicate Varredura(amb: Ambiente, e: Endividamento, hoje: int, i: nat, inicio: Estado, fim: Estado, n: nat) {
    var alvo := TipoPara(e.vencimentoFinal - hoje);
    n <= 1
    && (!Pendente(inicio.historico, e, hoje) || alvo.value.Posicao() >= i ==> n == 0 && fim == inicio)
    && (Pendente(inicio.historico, e, hoje) && alvo.value.Posicao() < i ==>
          Lembrete(amb, e, alvo.value, inicio, fim, n == 1))
  }

  lemma VarreduraInicio(amb: Ambiente, e: Endividamento, hoje: int, inicio: Estado)
    ensures Varredura(amb, e, hoje, 0, inicio, inicio, 0)
  {
  }

  /** A key that does not match, or whose label already had a success,
      changes nothing. */
  lemma VarreduraSalta(amb: Ambiente, e: Endividamento, hoje: int, i: nat, inicio: Estado, fim: Estado, n: nat)
    requires i < |TIPOS| && Varredura(amb, e, hoje, i, inicio, fim, n)
    requires e.vencimentoFinal - hoje != TIPOS[i].Dias() || JaFoiEnviada(fim.historico, e.id, TIPOS[i].Rotulo())
    ensures Varredura(amb, e, hoje, i + 1, inicio, fim, n)
  {
    PosicaoNaTabela(i);
    TipoParaUnico(TIPOS[i], e.vencimentoFinal - hoje);
    var alvo := TipoPara(e.vencimentoFinal - hoje);
    if alvo.Some? {
      TiposPosicao(alvo.value);
    }
  }

  /** The matching key, with no success for its label yet, is reached before
      anything happened. */
  lemma VarreduraAlvo(amb: Ambiente, e: Endividamento, hoje: int, i: nat, inicio: Estado, fim: Estado, n: nat)
    requires i < |TIPOS| && Varredura(amb, e, hoje, i, inicio, fim, n)
    requires e.vencimentoFinal - hoje == TIPOS[i].Dias() && !JaFoiEnviada(fim.historico, e.id, TIPOS[i].Rotulo())
    ensures n == 0 && fim == inicio
    ensures TipoPara(e.vencimentoFinal - hoje) == Some(TIPOS[i]) && TIPOS[i].Posicao() == i
    ensures Pendente(inicio.historico, e, hoje)
  {
    PosicaoNaTabela(i);
    TipoParaUnico(TIPOS[i], e.vencimentoFinal - hoje);
  }

  /** Its attempt is the one the loop records. */
  lemma VarreduraDispara(amb: Ambiente, e: Endividamento, hoje: int, i: nat, inicio: Estado, t: TipoNotificacao,
                         antes: Estado, depois: Estado, sucesso: bool)
    requires TipoPara(e.vencimentoFinal - hoje) == Some(t) && t.Posicao() == i
    requires Pendente(inicio.historico, e, hoje) && antes == inicio
    requires Lembrete(amb, e, t, antes, depois, sucesso)
    ensures Varredura(amb, e, hoje, i + 1, inicio, depois, if sucesso then 1 else 0)
  {
    LembreteTrocado(amb, e, t, TipoPara(e.vencimentoFinal - hoje).value, antes, inicio, depois, sucesso,
                    (if sucesso then 1 else 0) == 1);
  }

  lemma LembreteTrocado(amb: Ambiente, e: Endividamento, t: TipoNotificacao, t': TipoNotificacao,
                        antes: Estado, antes': Estado, depois: Estado, sucesso: bool, sucesso': bool)
    requires Lembrete(amb, e, t, antes, depois, sucesso)
    requires t == t' && antes == antes' && sucesso == sucesso'
    ensures Lembrete(amb, e, t', antes', depois, sucesso')
  {
  }

  /** Once every key was looked at, the call was one step. */
  lemma VarreduraEtapa(amb: Ambiente, e: Endividamento, hoje: int, inicio: Estado, fim: Estado, n: nat)
    requires Varredura(amb, e, hoje, |TIPOS|, inicio, fim, n)
    ensures Etapa(amb, inicio, fim, e, hoje, n)
  {
    if Pendente(inicio.historico, e, hoje) {
      TiposPosicao(TipoPara(e.vencimentoFinal - hoje).value);
    }
  }

  /** The shape every step has: the log only grows; a debt with nothing
      pending leaves history and log as they were and counts 0; otherwise at
      most one record is added, for the debt and today's label, successful
      exactly when the step counts 1. */
  predicate Passo(antes: Estado, depois: Estado, e: Endividamento, hoje: int, n: nat) {
    n <= 1
    && |antes.envios| <= |depois.envios| && depois.envios[..|antes.envios|] == antes.envios
    && (!Pendente(antes.historico, e, hoje) ==> n == 0 && depois == antes)
    && (Pendente(antes.historico, e, hoje) ==>
          Acrescimo(antes.historico, depois.historico, e.id,
                    TipoPara(e.vencimentoFinal - hoje).value.Rotulo(), n == 1))
  }

  lemma EtapaForma(amb: Ambiente, antes: Estado, depois: Estado, e: Endividamento, hoje: int, n: nat)
    requires Etapa(amb, antes, depois, e, hoje, n)
    ensures Passo(antes, depois, e, hoje, n)
  {
  }

  /** A whole sweep over `selecao`: `estados[j]` is the state before the j-th
      debt is processed and `contagens[j]` what processing it returned. */
  predicate Rodada(amb: Ambiente, estados: seq<Estado>, contagens: seq<nat>, selecao: seq<Endividamento>, hoje: int) {
    |estados| == |selecao| + 1 && |contagens| == |selecao|
    && forall j :: 0 <= j < |selecao| ==> Etapa(amb, estados[j], estados[j + 1], selecao[j], hoje, contagens[j])
  }

  /** The shape of a whole sweep: every step has the shape of `Passo`. */
  predicate RodadaForma(estados: seq<Estado>, contagens: seq<nat>, selecao: seq<Endividamento>, hoje: int) {
    |estados| == |selecao| + 1 && |contagens| == |selecao|
    && forall j :: 0 <= j < |selecao| ==> Passo(estados[j], estados[j + 1], selecao[j], hoje, contagens[j])
  }

  lemma RodadaFormaDe(amb: Ambiente, estados: seq<Estado>, contagens: seq<nat>, selecao: seq<Endividamento>,
                      hoje: int)
    requires Rodada(amb, estados, contagens, selecao, hoje)
    ensures RodadaForma(estados, contagens, selecao, hoje)
  {
    forall j | 0 <= j < |selecao|
      ensures Passo(estados[j], estados[j + 1], selecao[j], hoje, contagens[j])
    {
      EtapaForma(amb, estados[j], estados[j + 1], selecao[j], hoje, contagens[j]);
    }
  }

  function Soma(s: seq<nat>): nat {
    if s == [] then 0 else Soma(s[..|s| - 1]) + s[|s| - 1]
  }

  /** The number of successful records. */
  function Sucessos(historico: seq<Registro>): nat {
    if historico == [] then 0
    else Sucessos(historico[..|historico| - 1]) + (if historico[|historico| - 1].sucesso then 1 else 0)
  }

  /** The record was written for one of the swept debts, under the label of
      the interval its days left match. */
  predicate RegistroDe(r: Registro, selecao: seq<Endividamento>, hoje: int) {
    exists e :: e in selecao && TipoPara(e.vencimentoFinal - hoje).Some?
                && r.endividamentoId == e.id && r.tipo == TipoPara(e.vencimentoFinal - hoje).value.Rotulo()
  }

  /** One more step extends a sweep over the first `j` debts to the first `j + 1`. */
  lemma RodadaAnexar(amb: Ambiente, estados: seq<Estado>, contagens: seq<nat>, selecao: seq<Endividamento>, hoje: int,
                     j: nat, depois: Estado, n: nat)
    requires j < |selecao| && Rodada(amb, estados, contagens, selecao[..j], hoje)
    requires Etapa(amb, estados[j], depois, selecao[j], hoje, n)
    ensures Rodada(amb, estados + [depois], contagens + [n], selecao[..j + 1], hoje)
    ensures Soma(contagens + [n]) == Soma(contagens) + n
  {
    forall i | 0 <= i < j + 1
      ensures Etapa(amb, (estados + [depois])[i], (estados + [depois])[i + 1], selecao[..j + 1][i], hoje,
                    (contagens + [n])[i])
    {
      RodadaAnexarPasso(amb, estados, contagens, selecao, hoje, j, depois, n, i);
    }
    assert (contagens + [n])[..|contagens|] == contagens;
  }

  lemma RodadaAnexarPasso(amb: Ambiente, estados: seq<Estado>, contagens: seq<nat>, selecao: seq<Endividamento>,
                          hoje: int, j: nat, depois: Estado, n: nat, i: nat)
    requires j < |selecao| && Rodada(amb, estados, contagens, selecao[..j], hoje)
    requires Etapa(amb, estados[j], depois, selecao[j], hoje, n)
    requires i <= j
    ensures Etapa(amb, (estados + [depois])[i], (estados + [depois])[i + 1], selecao[..j + 1][i], hoje,
                  (contagens + [n])[i])
  {
    var es, cs, sel := estados + [depois], contagens + [n], selecao[..j + 1];
    if i < j {
      RodadaPasso(amb, estados, contagens, selecao[..j], hoje, i);
      assert es[i] == estados[i] && es[i + 1] == estados[i + 1] && sel[i] == selecao[..j][i] && cs[i] == contagens[i];
    } else {
      assert es[i] == estados[j] && es[i + 1] == depois && sel[i] == selecao[j] && cs[i] == n;
    }
  }

  lemma RodadaPasso(amb: Ambiente, estados: seq<Estado>, contagens: seq<nat>, selecao: seq<Endividamento>,
                    hoje: int, i: nat)
    requires Rodada(amb, estados, contagens, selecao, hoje) && i < |selecao|
    ensures Etapa(amb, estados[i], estados[i + 1], selecao[i], hoje, contagens[i])
  {
  }

  /** The first `m` steps of a sweep are a sweep. */
  lemma RodadaInicio(amb: Ambiente, estados: seq<Estado>, contagens: seq<nat>, selecao: seq<Endividamento>, hoje: int, m: nat)
    requires Rodada(amb, estados, contagens, selecao, hoje)
    requires m <= |selecao|
    ensures Rodada(amb, estados[..m + 1], contagens[..m], selecao[..m], hoje)
  {
  }

  lemma RodadaFormaInicio(estados: seq<Estado>, contagens: seq<nat>, selecao: seq<Endividamento>, hoje: int, m: nat)
    requires RodadaForma(estados, contagens, selecao, hoje)
    requires m <= |selecao|
    ensures RodadaForma(estados[..m + 1], contagens[..m], selecao[..m], hoje)
  {
  }

  /** A sweep only appends to the history, at most one record per debt, only
      appends to the log, and counts at most one per debt. */
  lemma {:induction false} RodadaCresce(estados: seq<Estado>, contagens: seq<nat>, selecao: seq<Endividamento>, hoje: int)
    requires RodadaForma(estados, contagens, selecao, hoje)
    ensures var h0, h := estados[0].historico, estados[|selecao|].historico;
            |h0| <= |h| <= |h0| + |selecao| && h[..|h0|] == h0
    ensures var l0, l := estados[0].envios, estados[|selecao|].envios;
            |l0| <= |l| && l[..|l0|] == l0
    ensures Soma(contagens) <= |selecao|
  {
    var m := |selecao|;
    if m > 0 {
      RodadaFormaInicio(estados, contagens, selecao, hoje, m - 1);
      RodadaCresce(estados[..m], contagens[..m - 1], selecao[..m - 1], hoje);
      assert Passo(estados[m - 1], estados[m], selecao[m - 1], hoje, contagens[m - 1]);
      var h0, h1, h := estados[0].historico, estados[m - 1].historico, estados[m].historico;
      assert h[..|h0|] == h[..|h1|][..|h0|];
      var l0, l1, l := estados[0].envios, estados[m - 1].envios, estados[m].envios;
      assert l[..|l0|] == l[..|l1|][..|l0|];
    }
  }

  /** One step keeps the records before it and adds only a record for its
      own debt, under today's label. */
  lemma PassoRegistro(antes: Estado, depois: Estado, e: Endividamento, hoje: int, n: nat, k: nat)
    requires Passo(antes, depois, e, hoje, n)
    requires k < |depois.historico|
    ensures k < |antes.historico| ==> depois.historico[k] == antes.historico[k]
    ensures k >= |antes.historico| ==>
              TipoPara(e.vencimentoFinal - hoje).Some?
              && depois.historico[k].endividamentoId == e.id
              && depois.historico[k].tipo == TipoPara(e.vencimentoFinal - hoje).value.Rotulo()
  {
    if depois.historico != antes.historico && k < |antes.historico| {
      assert depois.historico[k] == depois.historico[..|antes.historico|][k];
    }
  }

  /** A record of the swept debts is one of a larger sweep too. */
  lemma RegistroDeMais(r: Registro, menor: seq<Endividamento>, maior: seq<Endividamento>, hoje: int)
    requires RegistroDe(r, menor, hoje)
    requires forall e :: e in menor ==> e in maior
    ensures RegistroDe(r, maior, hoje)
  {
    var w :| w in menor && TipoPara(w.vencimentoFinal - hoje).Some?
             && r.endividamentoId == w.id && r.tipo == TipoPara(w.vencimentoFinal - hoje).value.Rotulo();
    assert w in maior;
  }

  /** Every record a sweep writes belongs to a swept debt and carries the
      label of the interval that debt's days left match. */
  lemma {:induction false} RodadaRegistros(estados: seq<Estado>, contagens: seq<nat>, selecao: seq<Endividamento>,
                                           hoje: int, k: nat)
    requires RodadaForma(estados, contagens, selecao, hoje)
    requires |estados[0].historico| <= k < |estados[|selecao|].historico|
    ensures RegistroDe(estados[|selecao|].historico[k], selecao, hoje)
  {
    var m := |selecao|;
    if m == 0 {
      return;
    }
    var inicio, e := selecao[..m - 1], selecao[m - 1];
    var anteriores := estados[..m];
    RodadaFormaInicio(estados, contagens, selecao, hoje, m - 1);
    assert anteriores[0] == estados[0] && anteriores[m - 1] == estados[m - 1];
    RodadaCresce(anteriores, contagens[..m - 1], inicio, hoje);
    PassoRegistro(estados[m - 1], estados[m], e, hoje, contagens[m - 1], k);
    if k < |estados[m - 1].historico| {
      RodadaRegistros(anteriores, contagens[..m - 1], inicio, hoje, k);
      RegistroDeMais(estados[m - 1].historico[k], inicio, selecao, hoje);
    } else {
      assert e in selecao;
    }
  }

  /** The same-day rerun: when no swept debt has a reminder pending, the sweep
      sends nothing, writes nothing and counts 0. */
  lemma {:induction false} RodadaSemPendentes(estados: seq<Estado>, contagens: seq<nat>, selecao: seq<Endividamento>,
                                              hoje: int)
    requires RodadaForma(estados, contagens, selecao, hoje)
    requires forall e :: e in selecao ==> !Pendente(estados[0].historico, e, hoje)
    ensures estados[|selecao|] == estados[0] && Soma(contagens) == 0
  {
    var m := |selecao|;
    if m > 0 {
      RodadaFormaInicio(estados, contagens, selecao, hoje, m - 1);
      assert forall e :: e in selecao[..m - 1] ==> e in selecao;
      RodadaSemPendentes(estados[..m], contagens[..m - 1], selecao[..m - 1], hoje);
      assert selecao[m - 1] in selecao;
      assert Passo(estados[m - 1], estados[m], selecao[m - 1], hoje, contagens[m - 1]);
    }
  }

  /** A reminder the history already records as sent before the sweep is not
      sent again: that debt's step leaves history and log untouched and
      counts 0. */
  lemma RodadaNaoRepete(estados: seq<Estado>, contagens: seq<nat>, selecao: seq<Endividamento>, hoje: int, j: nat)
    requires RodadaForma(estados, contagens, selecao, hoje)
    requires j < |selecao| && TipoPara(selecao[j].vencimentoFinal - hoje).Some?
    requires JaFoiEnviada(estados[0].historico, selecao[j].id, TipoPara(selecao[j].vencimentoFinal - hoje).value.Rotulo())
    ensures estados[j + 1] == estados[j] && contagens[j] == 0
  {
    var e := selecao[j];
    var rotulo := TipoPara(e.vencimentoFinal - hoje).value.Rotulo();
    RodadaFormaInicio(estados, contagens, selecao, hoje, j);
    RodadaCresce(estados[..j + 1], contagens[..j], selecao[..j], hoje);
    assert estados[..j + 1][0] == estados[0] && estados[..j + 1][j] == estados[j];
    JaFoiEnviadaPrefixo(estados[0].historico, estados[j].historico, e.id, rotulo);
    assert Passo(estados[j], estados[j + 1], e, hoje, contagens[j]);
  }

  /** A history that extends another keeps its successes. */
  lemma JaFoiEnviadaPrefixo(curto: seq<Registro>, longo: seq<Registro>, id: int, tipo: string)
    requires |curto| <= |longo| && longo[..|curto|] == curto
    requires JaFoiEnviada(curto, id, tipo)
    ensures JaFoiEnviada(longo, id, tipo)
  {
    assert longo == curto + longo[|curto|..];
    JaFoiEnviadaMonotona(curto, longo[|curto|..], id, tipo);
  }

  /** What a sweep does to the history, gathered: it only appends, at most
      one record per swept debt, each for a swept debt under today's label;
      with nothing pending it changes nothing. */
  lemma RodadaEfeitos(amb: Ambiente, estados: seq<Estado>, contagens: seq<nat>, selecao: seq<Endividamento>, hoje: int)
    requires Rodada(amb, estados, contagens, selecao, hoje)
    ensures var h0, h := estados[0].historico, estados[|selecao|].historico;
            |h0| <= |h| <= |h0| + |selecao| && h[..|h0|] == h0
    ensures Soma(contagens) <= |selecao|
    ensures forall k :: |estados[0].historico| <= k < |estados[|selecao|].historico| ==>
              RegistroDe(estados[|selecao|].historico[k], selecao, hoje)
    ensures (forall e :: e in selecao ==> !Pendente(estados[0].historico, e, hoje)) ==>
              estados[|selecao|] == estados[0] && Soma(contagens) == 0
    ensures Sucessos(estados[|selecao|].historico) <= Sucessos(estados[0].historico) + Soma(contagens)
    ensures Entregues(estados[0].envios) + Soma(contagens) <= Entregues(estados[|selecao|].envios)
  {
    RodadaFormaDe(amb, estados, contagens, selecao, hoje);
    RodadaCresce(estados, contagens, selecao, hoje);
    RodadaSucessos(estados, contagens, selecao, hoje);
    RodadaEntregas(amb, estados, contagens, selecao, hoje);
    forall k | |estados[0].historico| <= k < |estados[|selecao|].historico|
      ensures RegistroDe(estados[|selecao|].historico[k], selecao, hoje)
    {
      RodadaRegistros(estados, contagens, selecao, hoje, k);
    }
    if forall e :: e in selecao ==> !Pendente(estados[0].historico, e, hoje) {
      RodadaSemPendentes(estados, contagens, selecao, hoje);
    }
  }

  /** Every successful record a sweep writes is counted: the count is at
      least the number of new successful records. */
  lemma {:induction false} RodadaSucessos(estados: seq<Estado>, contagens: seq<nat>, selecao: seq<Endividamento>,
                                          hoje: int)
    requires RodadaForma(estados, contagens, selecao, hoje)
    ensures Sucessos(estados[|selecao|].historico) <= Sucessos(estados[0].historico) + Soma(contagens)
  {
    var m := |selecao|;
    if m > 0 {
      RodadaFormaInicio(estados, contagens, selecao, hoje, m - 1);
      RodadaSucessos(estados[..m], contagens[..m - 1], selecao[..m - 1], hoje);
      assert Passo(estados[m - 1], estados[m], selecao[m - 1], hoje, contagens[m - 1]);
      var h1, h := estados[m - 1].historico, estados[m].historico;
      if h != h1 {
        assert h[..|h| - 1] == h1;
      }
    }
  }

  /** The number of delivered messages in a log. */
  function Entregues(log: seq<Envio>): nat {
    if log == [] then 0 else Entregues(log[..|log| - 1]) + (if log[|log| - 1].entregue then 1 else 0)
  }

  lemma {:induction false} EntreguesConcat(a: seq<Envio>, b: seq<Envio>)
    ensures Entregues(a + b) == Entregues(a) + Entregues(b)
  {
    if b == [] {
      assert a + b == a;
    } else {
      assert (a + b)[..|a + b| - 1] == a + b[..|b| - 1];
      EntreguesConcat(a, b[..|b| - 1]);
    }
  }

  /** A log holding a delivered message counts at least one delivery. */
  lemma {:induction false} EntregueEm(log: seq<Envio>, k: nat)
    requires k < |log| && log[k].entregue
    ensures Entregues(log) >= 1
  {
    if k < |log| - 1 {
      EntregueEm(log[..|log| - 1], k);
    }
  }

  /** The channels only report success when a message was delivered: the
      e-mail, or every WhatsApp number of a non-empty list. */
  lemma DisparoEntrega(config: ConfigEmail, emails: seq<string>, assunto: string, corpo: string,
                       notificarWhatsapp: bool, whatsapps: seq<string>, mensagem: string,
                       novos: seq<Envio>, sucesso: bool)
    requires Disparo(config, emails, assunto, corpo, notificarWhatsapp, whatsapps, mensagem, novos, sucesso)
    ensures Entregues(novos) >= (if sucesso then 1 else 0)
  {
    var m := |if emails != [] then PedidosEmail(config, emails, assunto, corpo) else []|;
    if sucesso {
      if m == 1 && novos[0].entregue {
        EntregueEm(novos, 0);
      } else {
        assert novos[m..][0].entregue;
        EntregueEm(novos, m);
      }
    }
  }

  /** A successful attempt delivered at least one message of its own. */
  lemma LembreteEntrega(amb: Ambiente, e: Endividamento, t: TipoNotificacao, antes: Estado, depois: Estado,
                        sucesso: bool)
    requires Lembrete(amb, e, t, antes, depois, sucesso)
    ensures Entregues(depois.envios) >= Entregues(antes.envios) + (if sucesso then 1 else 0)
  {
    var novos := depois.envios[|antes.envios|..];
    assert depois.envios == antes.envios + novos;
    EntreguesConcat(antes.envios, novos);
    if sucesso {
      LembreteSucesso(amb, e, t, antes, depois);
    }
  }

  /** The messages of a successful attempt include a delivered one. */
  lemma LembreteSucesso(amb: Ambiente, e: Endividamento, t: TipoNotificacao, antes: Estado, depois: Estado)
    requires Lembrete(amb, e, t, antes, depois, true)
    ensures |antes.envios| <= |depois.envios| && Entregues(depois.envios[|antes.envios|..]) >= 1
  {
    var c := PrimeiraConfigAtiva(amb.configs, e.id).value;
    var periodo := Periodo(t.Dias());
    var pendente := ValorPendente(e.parcelas);
    DisparoEntrega(amb.emailConfig, Ler(c.emails), AssuntoLembrete(periodo, e.banco),
                   amb.redacao.corpoEmail(e, periodo, pendente),
                   c.notificarWhatsapp, Ler(c.whatsapps), amb.redacao.mensagemWhatsapp(e, periodo, pendente),
                   depois.envios[|antes.envios|..], true);
  }

  /** A step that counts 1 delivered a message. */
  lemma EtapaEntrega(amb: Ambiente, antes: Estado, depois: Estado, e: Endividamento, hoje: int, n: nat)
    requires Etapa(amb, antes, depois, e, hoje, n)
    ensures Entregues(depois.envios) >= Entregues(antes.envios) + n
  {
    if Pendente(antes.historico, e, hoje) {
      LembreteEntrega(amb, e, TipoPara(e.vencimentoFinal - hoje).value, antes, depois, n == 1);
    }
  }

  /** The sweep's total never exceeds the messages it delivered. */
  lemma {:induction false} RodadaEntregas(amb: Ambiente, estados: seq<Estado>, contagens: seq<nat>,
                                          selecao: seq<Endividamento>, hoje: int)
    requires Rodada(amb, estados, contagens, selecao, hoje)
    ensures Entregues(estados[0].envios) + Soma(contagens) <= Entregues(estados[|selecao|].envios)
  {
    var m := |selecao|;
    if m > 0 {
      RodadaInicio(amb, estados, contagens, selecao, hoje, m - 1);
      RodadaEntregas(amb, estados[..m], contagens[..m - 1], selecao[..m - 1], hoje);
      EtapaEntrega(amb, estados[m - 1], estados[m], selecao[m - 1], hoje, contagens[m - 1]);
    }
  }

  // ---------------------------------------------------------------------------
  // The service

  class NotificacaoEndividamentoService {
    /** The `historico_notificacao` table. */
    var historico: seq<Registro>
    /** The mail settings of the e-mail service. */
    const emailConfig: ConfigEmail

    constructor (emailConfig: ConfigEmail)
      ensures historico == [] && this.emailConfig == emailConfig
    {
      historico := [];
      this.emailConfig := emailConfig;
    }

    /** The history never holds two successes for one debt and label. */
    predicate Valid()
      reads this
    {
      UmSucessoPorChave(historico)
    }

    /** `_registrar_historico`: the row is committed, or the commit fails, is
        rolled back and the failure is swallowed. */
    method RegistrarHistorico(id: int, tipo: string, emails: seq<string>, whatsapps: seq<string>,
                              sucesso: bool, erro: Option<string>)
      modifies this
      ensures historico == old(historico)
              || historico == old(historico) + [Registro(id, tipo, emails, whatsapps, sucesso, erro)]
    {
      var gravado: bool :| true;
      if gravado {
        historico := historico + [Registro(id, tipo, emails, whatsapps, sucesso, erro)];
      }
    }

    /** `_enviar_notificacao(endividamento, tipo)`. Without an active setting
        nothing happens. A stored list that does not decode raises before any
        send, and a failure record with empty lists and the error text is
        written. Otherwise the channels run (see `Disparo`) and one record
        with the lists and the outcome is written. */
    method EnviarNotificacao(canal: Transporte, configs: seq<ConfigNotificacao>, e: Endividamento,
                             t: TipoNotificacao, redacao: Redacao) returns (sucesso: bool)
      modifies this, canal
      ensures Lembrete(Ambiente(emailConfig, configs, redacao), e, t, old(Estado(historico, canal.envios)),
                       Estado(historico, canal.envios), sucesso)
    {
      ghost var amb := Ambiente(emailConfig, configs, redacao);
      ghost var antes := Estado(historico, canal.envios);
      var config := PrimeiraConfigAtiva(configs, e.id);
      if config.None? {
        LembreteSemConfig(amb, e, t, antes);
        return false;
      }
      var c := config.value;
      var emails := Decodificar(c.emails);
      var whatsapps := Decodificar(c.whatsapps);
      if emails.None? || whatsapps.None? {
        // the error text is whatever the decoder raised; only its being non-empty matters
        assert |"?"| > 0;
        var erro: string :| |erro| > 0;
        RegistrarHistorico(e.id, t.Rotulo(), [], [], false, Some(erro));
        LembreteIlegivel(amb, e, t, antes, Estado(historico, canal.envios), erro);
        return false;
      }
      var periodo := Periodo(t.Dias());
      var pendente := ValorPendente(e.parcelas);
      sucesso := DispararCanais(canal, emailConfig, emails.value, AssuntoLembrete(periodo, e.banco),
                                redacao.corpoEmail(e, periodo, pendente), c.notificarWhatsapp,
                                whatsapps.value, redacao.mensagemWhatsapp(e, periodo, pendente));
      RegistrarHistorico(e.id, t.Rotulo(), emails.value, whatsapps.value, sucesso, None);
      LembreteDisparado(amb, e, t, antes, Estado(historico, canal.envios), sucesso);
    }

    /** `_processar_endividamento(endividamento, hoje)`: the intervals are
        tried in table order and at most one of them matches the days left;
        its reminder goes out unless the history already holds a success for
        it. Returns 1 when that reminder went out successfully, else 0. */
    method ProcessarEndividamento(canal: Transporte, configs: seq<ConfigNotificacao>, e: Endividamento,
                                  hoje: int, redacao: Redacao) returns (n: nat)
      requires Valid()
      modifies this, canal
      ensures Valid()
      ensures Etapa(Ambiente(emailConfig, configs, redacao), old(Estado(historico, canal.envios)),
                    Estado(historico, canal.envios), e, hoje, n)
    {
      var dias := e.vencimentoFinal - hoje;
      ghost var amb := Ambiente(emailConfig, configs, redacao);
      ghost var inicio := Estado(historico, canal.envios);
      ghost var fim := inicio;
      VarreduraInicio(amb, e, hoje, inicio);
      n := 0;
      var i := 0;
      while i < |TIPOS|
        invariant 0 <= i <= |TIPOS|
        invariant Estado(historico, canal.envios) == fim && UmSucessoPorChave(fim.historico)
        invariant Varredura(amb, e, hoje, i, inicio, fim, n)
      {
        var t := TIPOS[i];
        if dias == t.Dias() && !JaFoiEnviada(historico, e.id, t.Rotulo()) {
          VarreduraAlvo(amb, e, hoje, i, inicio, fim, n);
          var ok := EnviarNotificacao(canal, configs, e, t, redacao);
          ghost var depois := Estado(historico, canal.envios);
          LembretePreserva(amb, e, t, fim, depois, ok);
          VarreduraDispara(amb, e, hoje, i, inicio, t, fim, depois, ok);
          if ok {
            n := n + 1;
          }
          fim := depois;
        } else {
          VarreduraSalta(amb, e, hoje, i, inicio, fim, n);
        }
        i := i + 1;
      }
      VarreduraEtapa(amb, e, hoje, inicio, fim, n);
    }

    /** `verificar_e_enviar_notificacoes()`. `consulta` is the debt table as
        the query returned it, `None` when the query raised. The swept debts
        are processed one after the other, in order (`Rodada`); `estados` and
        `contagens` record the state before each step and what it returned,
        and the total is their sum. */
    method VerificarEEnviarNotificacoes(canal: Transporte, configs: seq<ConfigNotificacao>,
                                        consulta: Option<seq<Endividamento>>, hoje: int, redacao: Redacao)
      returns (total: nat, ghost estados: seq<Estado>, ghost contagens: seq<nat>)
      requires Valid()
      modifies this, canal
      ensures Valid()
      ensures consulta.None? ==> total == 0 && historico == old(historico) && canal.envios == old(canal.envios)
      ensures consulta.Some? ==>
                var selecao := Selecao(consulta.value, configs, hoje);
                Rodada(Ambiente(emailConfig, configs, redacao), estados, contagens, selecao, hoje)
                && estados[0] == old(Estado(historico, canal.envios))
                && estados[|selecao|] == Estado(historico, canal.envios)
                && total == Soma(contagens)
      ensures consulta.Some? ==> total <= |Selecao(consulta.value, configs, hoje)|
      ensures Sucessos(historico) <= Sucessos(old(historico)) + total
      ensures Entregues(old(canal.envios)) + total <= Entregues(canal.envios)
      ensures |old(historico)| <= |historico| && historico[..|old(historico)|] == old(historico)
      ensures consulta.Some? ==> |historico| <= |old(historico)| + |Selecao(consulta.value, configs, hoje)|
      ensures forall k :: |old(historico)| <= k < |historico| ==>
                consulta.Some? && RegistroDe(historico[k], Selecao(consulta.value, configs, hoje), hoje)
      ensures consulta.Some?
              && (forall e :: e in Selecao(consulta.value, configs, hoje) ==> !Pendente(old(historico), e, hoje)) ==>
                total == 0 && historico == old(historico) && canal.envios == old(canal.envios)
    {
      if consulta.None? {
        return 0, [], [];
      }
      var endividamentos := Selecao(consulta.value, configs, hoje);
      ghost var amb := Ambiente(emailConfig, configs, redacao);
      total := 0;
      estados := [Estado(historico, canal.envios)];
      contagens := [];
      var j := 0;
      while j < |endividamentos|
        invariant 0 <= j <= |endividamentos|
        invariant Valid()
        invariant Rodada(amb, estados, contagens, endividamentos[..j], hoje)
        invariant estados[0] == old(Estado(historico, canal.envios))
        invariant estados[j] == Estado(historico, canal.envios)
        invariant total == Soma(contagens)
      {
        var n := ProcessarEndividamento(canal, configs, endividamentos[j], hoje, redacao);
        total := total + n;
        RodadaAnexar(amb, estados, contagens, endividamentos, hoje, j, Estado(historico, canal.envios), n);
        estados := estados + [Estado(historico, canal.envios)];
        contagens := contagens + [n];
        j := j + 1;
      }
      assert endividamentos[..j] == endividamentos;
      RodadaEfeitos(amb, estados, contagens, endividamentos, hoje);
    }
  }
}
