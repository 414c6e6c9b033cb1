/** The e-mail service: the guard clauses in front of the SMTP session, the
    urgency level and subject of a due-date notice, and the grouping of the
    documents whose days left match one of their notification offsets. */
module ServicoEmail {
  import opened Texto
  import opened Pessoas
  import opened Documentos
  import opened Canais

  // ---------------------------------------------------------------------------
  // EmailService.send_email

  /** The mail settings `send_email` reads from the application configuration. */
  datatype ConfigEmail = ConfigEmail(
    servidor: Option<string>,
    porta: Option<int>,
    remetente: Option<string>,
    senha: Option<string>,
    usarTls: bool)

  /** `all([smtp_server, port, sender_email, password])`: each one set and
      truthy (a port of 0 is falsy). */
  predicate ConfigCompleta(c: ConfigEmail) {
    Preenchido(c.servidor) && c.porta.Some? && c.porta.value != 0
    && Preenchido(c.remetente) && Preenchido(c.senha)
  }

  /** What `send_email` hands to the SMTP session: nothing when a guard
      clause returns early. */
  function PedidosEmail(config: ConfigEmail, destinatarios: seq<string>, assunto: string, corpo: string): (r: seq<Pedido>)
    ensures |r| <= 1
    ensures r != [] <==> destinatarios != [] && ConfigCompleta(config)
    ensures r != [] ==> r[0] == Email(destinatarios, assunto, corpo)
  {
    if destinatarios == [] || !ConfigCompleta(config) then [] else [Email(destinatarios, assunto, corpo)]
  }

  /** `EmailService.send_email`: false without any session when there is no
      recipient or the settings are incomplete; otherwise one session, whose
      outcome is returned. */
  method EnviarEmail(canal: Transporte, config: ConfigEmail, destinatarios: seq<string>, assunto: string, corpo: string)
    returns (ok: bool)
    modifies canal
    ensures Pedidos(canal.envios) == Pedidos(old(canal.envios)) + PedidosEmail(config, destinatarios, assunto, corpo)
    ensures destinatarios == [] || !ConfigCompleta(config) ==> !ok && canal.envios == old(canal.envios)
    ensures destinatarios != [] && ConfigCompleta(config) ==>
              canal.envios == old(canal.envios) + [Envio(Email(destinatarios, assunto, corpo), ok)]
  {
    if destinatarios == [] {
      return false;
    }
    if !ConfigCompleta(config) {
      return false;
    }
    ok := canal.EnviarSmtp(destinatarios, assunto, corpo);
    PedidosConcat(old(canal.envios), [Envio(Email(destinatarios, assunto, corpo), ok)]);
  }

  // ---------------------------------------------------------------------------
  // formatar_email_notificacao: urgency and subject

  datatype Urgencia = Urgente | Atencao | Aviso {
    /** The level written in the subject. */
    function Nivel(): string {
      match this
      case Urgente => "URGENTE"
      case Atencao => "ATENÇÃO"
      case Aviso => "AVISO"
    }

    /** The alert style of the message body. */
    function Classe(): string {
      match this
      case Urgente => "danger"
      case Atencao => "warning"
      case Aviso => "info"
    }

    /** How pressing the level is. */
    function Gravidade(): nat {
      match this
      case Urgente => 2
      case Atencao => 1
      case Aviso => 0
    }
  }

  function ClassificarUrgencia(diasRestantes: int): (u: Urgencia)
    ensures u == Urgente <==> diasRestantes <= 3
    ensures u == Atencao <==> 3 < diasRestantes <= 7
    ensures u == Aviso <==> diasRestantes > 7
  {
    if diasRestantes <= 3 then Urgente
    else if diasRestantes <= 7 then Atencao
    else Aviso
  }

  /** Fewer days left never give a milder level. */
  lemma UrgenciaMonotona(a: int, b: int)
    requires a <= b
    ensures ClassificarUrgencia(a).Gravidade() >= ClassificarUrgencia(b).Gravidade()
  {
  }

  /** The subject of the notice: level, document name, days left. */
  function AssuntoNotificacao(nome: string, diasRestantes: int): (r: string)
    ensures var nivel := ClassificarUrgencia(diasRestantes).Nivel();
            |nivel| < |r| && r[..|nivel|] == nivel
  {
    ClassificarUrgencia(diasRestantes).Nivel() + ": Documento '" + nome + "' vence em "
    + IntParaTexto(diasRestantes) + " dias"
  }

  /** The first two characters of the three level words already differ. */
  lemma NiveisDistintos(u: Urgencia, v: Urgencia)
    requires u.Nivel()[..2] == v.Nivel()[..2]
    ensures u == v
  {
    assert "URGENTE"[..2] == "UR" && "ATENÇÃO"[..2] == "AT" && "AVISO"[..2] == "AV";
  }

  /** The subject alone tells the urgency level. */
  lemma AssuntoDeterminaUrgencia(nome1: string, dias1: int, nome2: string, dias2: int)
    requires AssuntoNotificacao(nome1, dias1) == AssuntoNotificacao(nome2, dias2)
    ensures ClassificarUrgencia(dias1) == ClassificarUrgencia(dias2)
  {
    var u, v := ClassificarUrgencia(dias1), ClassificarUrgencia(dias2);
    var r := AssuntoNotificacao(nome1, dias1);
    assert u.Nivel()[..2] == r[..2] == v.Nivel()[..2];
    NiveisDistintos(u, v);
  }

  /** The subject of a document's notice tells its days left apart: two
      notices for the same document with equal subjects were sent on the same
      day. */
  lemma AssuntoInjetivo(nome: string, a: int, b: int)
    requires AssuntoNotificacao(nome, a) == AssuntoNotificacao(nome, b)
    ensures a == b
  {
    AssuntoDeterminaUrgencia(nome, a, nome, b);
    var inicio := ClassificarUrgencia(a).Nivel() + ": Documento '" + nome + "' vence em ";
    var x, y := IntParaTexto(a), IntParaTexto(b);
    var r := AssuntoNotificacao(nome, a);
    assert r == inicio + x + " dias" == inicio + y + " dias";
    assert |x| == |y|;
    assert x == r[|inicio|..|inicio| + |x|];
    assert y == r[|inicio|..|inicio| + |y|];
    LerInteiroIntParaTexto(a);
    LerInteiroIntParaTexto(b);
  }

  // ---------------------------------------------------------------------------
  // verificar_documentos_vencendo

  /** `documentos_por_prazo.get(p, [])` */
  function Buscar(g: map<int, seq<Documento>>, p: int): seq<Documento> {
    if p in g then g[p] else []
  }

  /** `documentos_por_prazo[p].append(d)`, creating the list when missing. */
  function Acrescentar(g: map<int, seq<Documento>>, p: int, d: Documento): (r: map<int, seq<Documento>>)
    ensures r.Keys == g.Keys + {p}
    ensures Buscar(r, p) == Buscar(g, p) + [d]
    ensures forall q :: q != p ==> Buscar(r, q) == Buscar(g, q)
  {
    g[p := Buscar(g, p) + [d]]
  }

  /** The inner loop over the offsets of one document with `dias` days left. */
  function AgruparPrazos(g: map<int, seq<Documento>>, d: Documento, prazos: seq<int>, dias: int): map<int, seq<Documento>> {
    if prazos == [] then g
    else
      var antes := AgruparPrazos(g, d, prazos[..|prazos| - 1], dias);
      var p := prazos[|prazos| - 1];
      if p == dias then Acrescentar(antes, p, d) else antes
  }

  /** The outer loop: documents without a due date are skipped. */
  function Agrupar(docs: seq<Documento>, hoje: int): map<int, seq<Documento>>
    reads docs
  {
    if docs == [] then map[]
    else
      var d := docs[|docs| - 1];
      var antes := Agrupar(docs[..|docs| - 1], hoje);
      if d.dataVencimento.None? then antes
      else AgruparPrazos(antes, d, d.PrazosNotificacao(), d.dataVencimento.value - hoje)
  }

  /** `verificar_documentos_vencendo()` on the documents of the database. */
  method VerificarDocumentosVencendo(todos: seq<Documento>, hoje: int) returns (porPrazo: map<int, seq<Documento>>)
    ensures porPrazo == Agrupar(todos, hoje)
  {
    var documentos := ComVencimento(todos);
    porPrazo := map[];
    var i := 0;
    while i < |documentos|
      invariant 0 <= i <= |documentos|
      invariant porPrazo == Agrupar(documentos[..i], hoje)
    {
      var documento := documentos[i];
      assert documentos[..i + 1][..i] == documentos[..i];
      if documento.dataVencimento.None? {
        i := i + 1;
        continue;
      }
      var diasRestantes := documento.dataVencimento.value - hoje;
      var prazos := documento.PrazosNotificacao();
      ghost var inicio := porPrazo;
      var j := 0;
      while j < |prazos|
        invariant 0 <= j <= |prazos|
        invariant porPrazo == AgruparPrazos(inicio, documento, prazos[..j], diasRestantes)
      {
        var prazo := prazos[j];
        assert prazos[..j + 1][..j] == prazos[..j];
        if diasRestantes == prazo {
          porPrazo := porPrazo[prazo := Buscar(porPrazo, prazo) + [documento]];
        }
        j := j + 1;
      }
      assert prazos[..j] == prazos;
      i := i + 1;
    }
    assert documentos[..i] == documentos;
    AgruparComVencimento(todos, hoje);
  }

  /** The outer loop's step for one more document. */
  lemma AgruparAnexar(c: seq<Documento>, d: Documento, hoje: int)
    ensures Agrupar(c + [d], hoje)
            == if d.dataVencimento.None? then Agrupar(c, hoje)
               else AgruparPrazos(Agrupar(c, hoje), d, d.PrazosNotificacao(), d.dataVencimento.value - hoje)
  {
    assert (c + [d])[..|c|] == c;
  }

  /** Grouping the dated documents or all of them comes to the same. */
  lemma {:induction false} AgruparComVencimento(docs: seq<Documento>, hoje: int)
    ensures Agrupar(ComVencimento(docs), hoje) == Agrupar(docs, hoje)
  {
    if docs != [] {
      var inicio, d := docs[..|docs| - 1], docs[|docs| - 1];
      AgruparComVencimento(inicio, hoje);
      if d.dataVencimento.Some? {
        assert ComVencimento(docs) == ComVencimento(inicio) + [d];
        AgruparAnexar(ComVencimento(inicio), d, hoje);
      } else {
        assert ComVencimento(docs) == ComVencimento(inicio);
      }
    }
  }

  // ----- reference definition of a group

  /** The number of times `p` occurs in `prazos`. */
  function Contar(prazos: seq<int>, p: int): (n: nat)
    ensures n <= |prazos|
    ensures n > 0 <==> p in prazos
  {
    if prazos == [] then 0
    else Contar(prazos[..|prazos| - 1], p) + (if prazos[|prazos| - 1] == p then 1 else 0)
  }

  /** `n` copies of `d`. */
  function Repetir(d: Documento, n: nat): (r: seq<Documento>)
    ensures |r| == n
    ensures forall x :: x in r ==> x == d
  {
    if n == 0 then [] else Repetir(d, n - 1) + [d]
  }

  /** Whether document `d` belongs under offset `p`: it has a due date `p`
      days from today and `p` is one of its offsets. */
  predicate Casa(d: Documento, hoje: int, p: int)
    reads d
  {
    d.dataVencimento.Some? && d.dataVencimento.value - hoje == p && p in d.PrazosNotificacao()
  }

  /** The list filed under `p`: each matching document, in order, once per
      occurrence of `p` among its offsets. */
  function Grupo(docs: seq<Documento>, hoje: int, p: int): seq<Documento>
    reads docs
  {
    if docs == [] then []
    else
      var d := docs[|docs| - 1];
      Grupo(docs[..|docs| - 1], hoje, p)
      + (if d.dataVencimento.Some? && d.dataVencimento.value - hoje == p
         then Repetir(d, Contar(d.PrazosNotificacao(), p)) else [])
  }

  lemma UltimoEm(prazos: seq<int>, p: int)
    requires prazos != []
    ensures p in prazos <==> p in prazos[..|prazos| - 1] || prazos[|prazos| - 1] == p
  {
    assert prazos == prazos[..|prazos| - 1] + [prazos[|prazos| - 1]];
  }

  /** One document's offsets make its days left a key when they hold it, and
      add no other key. */
  lemma {:induction false} AgruparPrazosChaves(g: map<int, seq<Documento>>, d: Documento, prazos: seq<int>, dias: int, p: int)
    ensures p in AgruparPrazos(g, d, prazos, dias) <==> p in g || (p == dias && p in prazos)
  {
    if prazos != [] {
      AgruparPrazosChaves(g, d, prazos[..|prazos| - 1], dias, p);
      UltimoEm(prazos, p);
    }
  }

  /** One document's offsets add its copies under its own days left and
      nowhere else. */
  lemma {:induction false} AgruparPrazosBuscar(g: map<int, seq<Documento>>, d: Documento, prazos: seq<int>, dias: int, p: int)
    ensures Buscar(AgruparPrazos(g, d, prazos, dias), p)
            == Buscar(g, p) + (if p == dias then Repetir(d, Contar(prazos, p)) else [])
  {
    if prazos != [] {
      AgruparPrazosBuscar(g, d, prazos[..|prazos| - 1], dias, p);
    } else {
      assert Buscar(g, p) + [] == Buscar(g, p);
    }
  }

  /** `porPrazo[p]` is exactly the reference group, and `p` is a key exactly
      when that group is not empty. */
  lemma {:induction false} AgruparCorreto(docs: seq<Documento>, hoje: int, p: int)
    ensures Buscar(Agrupar(docs, hoje), p) == Grupo(docs, hoje, p)
    ensures p in Agrupar(docs, hoje) <==> Grupo(docs, hoje, p) != []
  {
    if docs != [] {
      var inicio, d := docs[..|docs| - 1], docs[|docs| - 1];
      AgruparCorreto(inicio, hoje, p);
      if d.dataVencimento.Some? {
        var dias := d.dataVencimento.value - hoje;
        AgruparPrazosChaves(Agrupar(inicio, hoje), d, d.PrazosNotificacao(), dias, p);
        AgruparPrazosBuscar(Agrupar(inicio, hoje), d, d.PrazosNotificacao(), dias, p);
      }
    }
  }

  /** Membership in a reference group, both directions. */
  lemma {:induction false} GrupoMembros(docs: seq<Documento>, hoje: int, p: int)
    ensures forall x :: x in Grupo(docs, hoje, p) <==> x in docs && Casa(x, hoje, p)
  {
    if docs != [] {
      var inicio, d := docs[..|docs| - 1], docs[|docs| - 1];
      GrupoMembros(inicio, hoje, p);
      assert docs == inicio + [d];
      if d.dataVencimento.Some? && d.dataVencimento.value - hoje == p {
        var n := Contar(d.PrazosNotificacao(), p);
        assert n > 0 ==> d in Repetir(d, n) by {
          if n > 0 {
            assert Repetir(d, n) == Repetir(d, n - 1) + [d];
          }
        }
      }
    }
  }

  /** A document is filed under `p` exactly when it has a due date `p` days
      away and `p` among its offsets; then `p` is a key and no key maps to an
      empty list. */
  lemma AgrupamentoMembros(docs: seq<Documento>, hoje: int, p: int)
    ensures forall x :: x in Buscar(Agrupar(docs, hoje), p) <==> x in docs && Casa(x, hoje, p)
    ensures p in Agrupar(docs, hoje) ==> Agrupar(docs, hoje)[p] != []
  {
    AgruparCorreto(docs, hoje, p);
    GrupoMembros(docs, hoje, p);
  }

  /** Every key is an offset of some document. */
  lemma ChavesSaoPrazos(docs: seq<Documento>, hoje: int, p: int)
    requires p in Agrupar(docs, hoje)
    ensures exists x :: x in docs && p in x.PrazosNotificacao()
  {
    AgrupamentoMembros(docs, hoje, p);
    var x := Agrupar(docs, hoje)[p][0];
    assert x in Buscar(Agrupar(docs, hoje), p);
  }

  /** For offsets from 0 up, the grouping agrees with `precisa_notificar`:
      a document filed under such a key needs a notice. */
  lemma AgrupadoPrecisaNotificar(docs: seq<Documento>, hoje: int, p: int, x: Documento)
    requires p >= 0
    requires x in Buscar(Agrupar(docs, hoje), p)
    ensures x.PrecisaNotificar(hoje)
  {
    AgrupamentoMembros(docs, hoje, p);
  }

  /** Both directions, for a listed document: it needs a notice exactly when
      the grouping files it under a key from 0 up. */
  lemma PrecisaNotificarAgrupado(docs: seq<Documento>, hoje: int, x: Documento)
    requires x in docs
    ensures x.PrecisaNotificar(hoje) <==> exists p :: p >= 0 && x in Buscar(Agrupar(docs, hoje), p)
  {
    if x.PrecisaNotificar(hoje) {
      var p := x.dataVencimento.value - hoje;
      AgrupamentoMembros(docs, hoje, p);
    }
    if exists p :: p >= 0 && x in Buscar(Agrupar(docs, hoje), p) {
      var p :| p >= 0 && x in Buscar(Agrupar(docs, hoje), p);
      AgrupadoPrecisaNotificar(docs, hoje, p, x);
    }
  }

  /** The grouping has no `>= 0` guard: an overdue document with a matching
      negative offset is filed although `precisa_notificar` is false for it. */
  lemma NegativoAgrupadoSemPrecisarNotificar(docs: seq<Documento>, hoje: int, x: Documento)
    requires x in docs && x.dataVencimento == Some(hoje - 1) && -1 in x.PrazosNotificacao()
    ensures x in Buscar(Agrupar(docs, hoje), -1)
    ensures x.EstaVencido(hoje) && !x.PrecisaNotificar(hoje)
  {
    AgrupamentoMembros(docs, hoje, -1);
  }
}
