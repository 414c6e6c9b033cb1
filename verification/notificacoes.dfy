/** The dashboard check of due documents and the banners it flashes. */
module Notificacoes {
  import opened Texto
  import opened Documentos

  /** A flashed message and its category. */
  datatype Alerta = Alerta(mensagem: string, categoria: string)

  const LINK_VENCIDOS: string := "<a href=\"/admin/documentos/vencidos\">Verificar agora</a>"

  /** A count written out between two fixed texts. */
  function Contagem(antes: string, n: nat, depois: string): string {
    antes + NatParaTexto(n) + depois
  }

  /** The red banner about `n` overdue documents. */
  function AlertaVencidos(n: nat): Alerta {
    Alerta(Contagem("Atenção! Existem ", n, " documento(s) vencido(s). " + LINK_VENCIDOS), "danger")
  }

  /** The yellow banner about `n` documents close to their due date. */
  function AlertaProximos(n: nat): Alerta {
    Alerta(Contagem("Existem ", n, " documento(s) próximo(s) do vencimento. " + LINK_VENCIDOS), "warning")
  }

  /** The banners for the two counts, in the order they are flashed: one per
      non-empty list, the overdue one first. */
  function Alertas(nVencidos: nat, nProximos: nat): (r: seq<Alerta>)
    ensures |r| == (if nVencidos > 0 then 1 else 0) + (if nProximos > 0 then 1 else 0)
    ensures AlertaVencidos(nVencidos) in r <==> nVencidos > 0
    ensures AlertaProximos(nProximos) in r <==> nProximos > 0
    ensures forall a :: a in r ==> a == AlertaVencidos(nVencidos) || a == AlertaProximos(nProximos)
    ensures nVencidos > 0 ==> r[0] == AlertaVencidos(nVencidos)
  {
    (if nVencidos > 0 then [AlertaVencidos(nVencidos)] else [])
    + (if nProximos > 0 then [AlertaProximos(nProximos)] else [])
  }

  /** The count can be read back from the text around it. */
  lemma ContagemInjetiva(antes: string, a: nat, b: nat, depois: string)
    requires Contagem(antes, a, depois) == Contagem(antes, b, depois)
    ensures a == b
  {
    var x, y := NatParaTexto(a), NatParaTexto(b);
    assert |x| == |y|;
    assert x == Contagem(antes, a, depois)[|antes|..|antes| + |x|];
    assert y == Contagem(antes, b, depois)[|antes|..|antes| + |y|];
    NatParaTextoInjetivo(a, b);
  }

  /** Each banner names its count: different counts give different texts. */
  lemma AlertasContam(a: nat, b: nat)
    ensures AlertaVencidos(a) == AlertaVencidos(b) ==> a == b
    ensures AlertaProximos(a) == AlertaProximos(b) ==> a == b
  {
    if AlertaVencidos(a) == AlertaVencidos(b) {
      ContagemInjetiva("Atenção! Existem ", a, b, " documento(s) vencido(s). " + LINK_VENCIDOS);
    }
    if AlertaProximos(a) == AlertaProximos(b) {
      ContagemInjetiva("Existem ", a, b, " documento(s) próximo(s) do vencimento. " + LINK_VENCIDOS);
    }
  }

  /** `verificar_documentos_vencimento()`. `consulta` is the document table
      as the query returned it, `None` when the query raised; only the dated
      documents are looked at. */
  method VerificarDocumentosVencimento(consulta: Option<seq<Documento>>, hoje: int)
    returns (vencidos: seq<Documento>, proximos: seq<Documento>)
    ensures consulta.None? ==> vencidos == [] && proximos == []
    ensures consulta.Some? ==> vencidos == Vencidos(consulta.value, hoje)
                               && proximos == AVencer(consulta.value, hoje)
  {
    if consulta.None? {
      return [], [];
    }
    var documentos := ComVencimento(consulta.value);
    vencidos, proximos := [], [];
    var i := 0;
    while i < |documentos|
      invariant 0 <= i <= |documentos|
      invariant vencidos == Vencidos(documentos[..i], hoje)
      invariant proximos == AVencer(documentos[..i], hoje)
    {
      var documento := documentos[i];
      assert documentos[..i + 1][..i] == documentos[..i];
      if documento.EstaVencido(hoje) {
        vencidos := vencidos + [documento];
      } else if documento.PrecisaNotificar(hoje) {
        proximos := proximos + [documento];
      }
      i := i + 1;
    }
    assert documentos[..i] == documentos;
    SepararComVencimento(consulta.value, hoje);
  }

  /** `gerar_alertas_vencimento()`: the same pair, and the banners flashed
      for it. */
  method GerarAlertasVencimento(consulta: Option<seq<Documento>>, hoje: int)
    returns (vencidos: seq<Documento>, proximos: seq<Documento>, alertas: seq<Alerta>)
    ensures consulta.None? ==> vencidos == [] && proximos == [] && alertas == []
    ensures consulta.Some? ==> vencidos == Vencidos(consulta.value, hoje)
                               && proximos == AVencer(consulta.value, hoje)
    ensures alertas == Alertas(|vencidos|, |proximos|)
  {
    vencidos, proximos := VerificarDocumentosVencimento(consulta, hoje);
    alertas := [];
    if vencidos != [] {
      alertas := alertas + [AlertaVencidos(|vencidos|)];
    }
    if proximos != [] {
      alertas := alertas + [AlertaProximos(|proximos|)];
    }
  }
}
