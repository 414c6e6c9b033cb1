/** A document with an optional due date, its notification settings and the
    deadline rules read off it: overdue, days left, whether today is one of
    its notification offsets, and the entity it belongs to. Dates are day
    numbers; `hoje` is today's. */
module Documentos {
  import opened Texto
  import opened Pessoas

  datatype TipoEntidade = EntidadeFazenda | EntidadePessoa

  /** The farm or person a document belongs to. */
  datatype Entidade = DeFazenda(fazenda: Fazenda) | DePessoa(pessoa: Pessoa) {
    function Nome(): string {
      match this
      case DeFazenda(f) => f.nome
      case DePessoa(p) => p.nome
    }
  }

  const NAO_DEFINIDO := "Não definido"

  /** The offset stored when a text of offsets does not parse. */
  const PRAZO_PADRAO := 30

  /** What a JSON list column holds: nothing (NULL or ''), a list, or text
      that does not decode. */
  datatype Guardado<T> = NadaGuardado | Lista(itens: seq<T>) | Ilegivel

  /** The list getters: the stored list, or [] when nothing is stored or the
      text does not decode. */
  function Ler<T>(g: Guardado<T>): (r: seq<T>)
    ensures g.Lista? ==> r == g.itens
    ensures !g.Lista? ==> r == []
  {
    if g.Lista? then g.itens else []
  }

  /** What a list setter can be given: a list, a text, or any other value. */
  datatype Entrada<T> = EntradaLista(itens: seq<T>) | EntradaTexto(texto: string) | EntradaOutra

  /** The list the e-mail setter stores. */
  function EmailsDeEntrada(valor: Entrada<string>): seq<string> {
    match valor
    case EntradaLista(l) => l
    case EntradaTexto(s) => LimparItens(Dividir(s, ','))
    case EntradaOutra => []
  }

  /** The list the WhatsApp setter stores: newlines count as commas. */
  function WhatsappsDeEntrada(valor: Entrada<string>): seq<string> {
    match valor
    case EntradaLista(l) => l
    case EntradaTexto(s) => LimparItens(Dividir(Substituir(s, '\n', ','), ','))
    case EntradaOutra => []
  }

  /** `[int(t) for t in textos]`, or None as soon as one `int()` raises. */
  function LerInteiros(textos: seq<string>): (r: Option<seq<int>>)
    ensures r.Some? ==> |r.value| == |textos|
    ensures r.Some? <==> forall t :: t in textos ==> LerInteiro(t).Some?
    ensures r.Some? ==> forall i :: 0 <= i < |textos| ==> LerInteiro(textos[i]) == Some(r.value[i])
  {
    if textos == [] then Some([])
    else
      match LerInteiro(textos[0])
      case None => None
      case Some(v) =>
        var resto := LerInteiros(textos[1..]);
        assert forall t :: t in textos[1..] ==> t in textos;
        if resto.None? then None else Some([v] + resto.value)
  }

  /** The list the offsets setter stores. */
  function PrazosDeEntrada(valor: Entrada<int>): seq<int> {
    match valor
    case EntradaLista(l) => l
    case EntradaTexto(s) =>
      var lidos := LerInteiros(LimparItens(Dividir(s, ',')));
      if lidos.Some? then lidos.value else [PRAZO_PADRAO]
    case EntradaOutra => [PRAZO_PADRAO]
  }

  class Documento {
    var nome: string
    var dataVencimento: Option<int>
    var tipoEntidade: TipoEntidade
    var fazenda: Option<Fazenda>
    var pessoa: Option<Pessoa>
    var emailsGuardados: Guardado<string>
    var whatsappsGuardados: Guardado<string>
    var notificarWhatsapp: bool
    var prazosGuardados: Guardado<int>

    /** A new document: no notification lists stored yet, WhatsApp off. */
    constructor (nome: string, dataVencimento: Option<int>, tipoEntidade: TipoEntidade,
                 fazenda: Option<Fazenda>, pessoa: Option<Pessoa>)
      ensures this.nome == nome && this.dataVencimento == dataVencimento
      ensures this.tipoEntidade == tipoEntidade && this.fazenda == fazenda && this.pessoa == pessoa
      ensures emailsGuardados == NadaGuardado && whatsappsGuardados == NadaGuardado
      ensures prazosGuardados == NadaGuardado && !notificarWhatsapp
    {
      this.nome := nome;
      this.dataVencimento := dataVencimento;
      this.tipoEntidade := tipoEntidade;
      this.fazenda := fazenda;
      this.pessoa := pessoa;
      emailsGuardados := NadaGuardado;
      whatsappsGuardados := NadaGuardado;
      notificarWhatsapp := false;
      prazosGuardados := NadaGuardado;
    }

    function EmailsNotificacao(): seq<string>
      reads this
    {
      Ler(emailsGuardados)
    }

    function WhatsappsNotificacao(): seq<string>
      reads this
    {
      Ler(whatsappsGuardados)
    }

    function PrazosNotificacao(): seq<int>
      reads this
    {
      Ler(prazosGuardados)
    }

    /** The `emails_notificacao` setter; the getter then returns the stored list. */
    method DefinirEmails(valor: Entrada<string>)
      modifies this`emailsGuardados
      ensures emailsGuardados == Lista(EmailsDeEntrada(valor))
      ensures EmailsNotificacao() == EmailsDeEntrada(valor)
    {
      match valor {
        case EntradaLista(l) =>
          emailsGuardados := Lista(l);
        case EntradaTexto(s) =>
          var emails := LimparItens(Dividir(s, ','));
          emailsGuardados := Lista(emails);
        case EntradaOutra =>
          emailsGuardados := Lista([]);
      }
    }

    /** The `whatsapps_notificacao` setter. */
    method DefinirWhatsapps(valor: Entrada<string>)
      modifies this`whatsappsGuardados
      ensures whatsappsGuardados == Lista(WhatsappsDeEntrada(valor))
      ensures WhatsappsNotificacao() == WhatsappsDeEntrada(valor)
    {
      match valor {
        case EntradaLista(l) =>
          whatsappsGuardados := Lista(l);
        case EntradaTexto(s) =>
          var whats := LimparItens(Dividir(Substituir(s, '\n', ','), ','));
          whatsappsGuardados := Lista(whats);
        case EntradaOutra =>
          whatsappsGuardados := Lista([]);
      }
    }

    /** The `prazos_notificacao` setter: a text whose pieces do not all
        parse as integers stores the default offset alone. */
    method DefinirPrazos(valor: Entrada<int>)
      modifies this`prazosGuardados
      ensures prazosGuardados == Lista(PrazosDeEntrada(valor))
      ensures PrazosNotificacao() == PrazosDeEntrada(valor)
    {
      match valor {
        case EntradaLista(l) =>
          prazosGuardados := Lista(l);
        case EntradaTexto(s) =>
          var lidos := LerInteiros(LimparItens(Dividir(s, ',')));
          if lidos.Some? {
            prazosGuardados := Lista(lidos.value);
          } else {
            prazosGuardados := Lista([PRAZO_PADRAO]);
          }
        case EntradaOutra =>
          prazosGuardados := Lista([PRAZO_PADRAO]);
      }
    }

    /** `esta_vencido` */
    predicate EstaVencido(hoje: int)
      reads this
    {
      dataVencimento.Some? && hoje > dataVencimento.value
    }

    /** `proximo_vencimento`: days from today to the due date. */
    function ProximoVencimento(hoje: int): Option<int>
      reads this
    {
      if dataVencimento.None? then None else Some(dataVencimento.value - hoje)
    }

    /** `precisa_notificar` */
    predicate PrecisaNotificar(hoje: int)
      reads this
    {
      match ProximoVencimento(hoje)
      case None => false
      case Some(dias) => dias >= 0 && dias in PrazosNotificacao()
    }

    /** `entidade_relacionada` */
    function EntidadeRelacionada(): Option<Entidade>
      reads this
    {
      match tipoEntidade
      case EntidadeFazenda => if fazenda.Some? then Some(DeFazenda(fazenda.value)) else None
      case EntidadePessoa => if pessoa.Some? then Some(DePessoa(pessoa.value)) else None
    }

    /** `nome_entidade` */
    function NomeEntidade(): string
      reads this
    {
      match EntidadeRelacionada()
      case Some(e) => e.Nome()
      case None => NAO_DEFINIDO
    }
  }

  // ---------------------------------------------------------------------------
  // Deadline rules

  /** Overdue exactly when the due date lies strictly before today, that is
      when the days left are negative. */
  lemma VencidoSeDiasNegativos(d: Documento, hoje: int)
    ensures d.EstaVencido(hoje) <==> (d.ProximoVencimento(hoje).Some? && d.ProximoVencimento(hoje).value < 0)
  {
  }

  /** A document due today is not overdue, and has 0 days left. */
  lemma VenceHoje(d: Documento, hoje: int)
    requires d.dataVencimento == Some(hoje)
    ensures !d.EstaVencido(hoje) && d.ProximoVencimento(hoje) == Some(0)
  {
  }

  /** A document that needs a notice is never an overdue one. */
  lemma PrecisaNotificarNaoVencido(d: Documento, hoje: int)
    requires d.PrecisaNotificar(hoje)
    ensures !d.EstaVencido(hoje)
  {
  }

  /** A past document is not notified even when a negative offset matches
      its days left. */
  lemma VencidoNaoNotifica(d: Documento, hoje: int)
    requires d.dataVencimento.Some? && d.dataVencimento.value < hoje
    requires d.dataVencimento.value - hoje in d.PrazosNotificacao()
    ensures d.EstaVencido(hoje) && !d.PrecisaNotificar(hoje)
  {
  }

  /** Without offsets nothing is ever notified. */
  lemma SemPrazosNaoNotifica(d: Documento, hoje: int)
    requires d.PrazosNotificacao() == []
    ensures !d.PrecisaNotificar(hoje)
  {
  }

  /** `nome_entidade` reads only the relation `tipo_entidade` selects: two
      documents of the same kind that agree on that relation have the same
      name, whatever the other relation holds. */
  lemma NomeEntidadeSoDaSelecionada(d: Documento, outro: Documento)
    requires d.tipoEntidade == outro.tipoEntidade
    requires d.tipoEntidade == EntidadeFazenda ==> d.fazenda == outro.fazenda
    requires d.tipoEntidade == EntidadePessoa ==> d.pessoa == outro.pessoa
    ensures d.NomeEntidade() == outro.NomeEntidade()
  {
  }

  /** A document whose selected relation is empty is named "Não definido",
      even when the other relation is set. */
  lemma NomeEntidadeSemSelecionada(d: Documento)
    requires d.tipoEntidade == EntidadeFazenda ==> d.fazenda.None?
    requires d.tipoEntidade == EntidadePessoa ==> d.pessoa.None?
    ensures d.NomeEntidade() == NAO_DEFINIDO
  {
  }

  // ---------------------------------------------------------------------------
  // List setters

  /** Whatever the setters are given, a text yields clean pieces free of the
      separators. */
  lemma EmailsDeTextoLimpos(s: string)
    ensures forall t :: t in EmailsDeEntrada(EntradaTexto(s)) ==> Limpo(t) && ',' !in t
  {
    LimparItensSemSeparador(Dividir(s, ','), ',');
  }

  lemma WhatsappsDeTextoLimpos(s: string)
    ensures forall t :: t in WhatsappsDeEntrada(EntradaTexto(s)) ==> Limpo(t) && ',' !in t && '\n' !in t
  {
    var u := Substituir(s, '\n', ',');
    assert '\n' !in u;
    var partes := Dividir(u, ',');
    forall t | t in partes
      ensures '\n' !in t
    {
      PecaDeDividirContida(u, ',', t);
    }
    LimparItensSemSeparador(partes, ',');
    LimparItensSemSeparador(partes, '\n');
  }

  /** A piece of a split holds only characters of the text split. */
  lemma {:induction false} PecaDeDividirContida(s: string, sep: char, t: string)
    requires t in Dividir(s, sep)
    ensures forall c :: c in t ==> c in s
  {
    if s != [] {
      var resto := Dividir(s[1..], sep);
      if s[0] == sep {
        if t != "" {
          assert t in resto;
          PecaDeDividirContida(s[1..], sep, t);
        }
      } else {
        if t == [s[0]] + resto[0] {
          assert resto[0] in resto;
          PecaDeDividirContida(s[1..], sep, resto[0]);
        } else {
          assert t in resto[1..];
          assert t in resto;
          PecaDeDividirContida(s[1..], sep, t);
        }
      }
    }
  }

  /** A list of clean, comma-free addresses written out with commas is read
      back as the same list. */
  lemma EmailsJuntarLer(emails: seq<string>)
    requires |emails| >= 1
    requires forall t :: t in emails ==> Limpo(t) && ',' !in t
    ensures EmailsDeEntrada(EntradaTexto(Juntar(emails, ','))) == emails
  {
    forall k | 0 <= k < |emails|
      ensures ',' !in emails[k]
    {
      assert emails[k] in emails;
    }
    DividirJuntar(emails, ',');
    LimparItensLimpos(emails);
  }

  lemma {:induction false} SubstituirAusente(s: string, de: char, para: char)
    requires de !in s
    ensures Substituir(s, de, para) == s
  {
  }

  /** The same for WhatsApp numbers, which may also be given one per line. */
  lemma WhatsappsJuntarLer(numeros: seq<string>, sep: char)
    requires sep == ',' || sep == '\n'
    requires |numeros| >= 1
    requires forall t :: t in numeros ==> Limpo(t) && ',' !in t && '\n' !in t
    ensures WhatsappsDeEntrada(EntradaTexto(Juntar(numeros, sep))) == numeros
  {
    var s := Juntar(numeros, sep);
    var trocados := Substituir(s, '\n', ',');
    JuntarTrocado(numeros, sep);
    assert trocados == Juntar(numeros, ',');
    forall k | 0 <= k < |numeros|
      ensures ',' !in numeros[k]
    {
      assert numeros[k] in numeros;
    }
    DividirJuntar(numeros, ',');
    LimparItensLimpos(numeros);
  }

  /** Replacing the newline separator by a comma in a joined text is joining
      with commas, when no piece holds a newline. */
  lemma {:induction false} JuntarTrocado(partes: seq<string>, sep: char)
    requires sep == ',' || sep == '\n'
    requires |partes| >= 1
    requires forall t :: t in partes ==> '\n' !in t
    ensures Substituir(Juntar(partes, sep), '\n', ',') == Juntar(partes, ',')
  {
    var primeira := partes[0];
    assert primeira in partes;
    SubstituirAusente(primeira, '\n', ',');
    if |partes| > 1 {
      var resto := partes[1..];
      assert forall t :: t in resto ==> t in partes;
      JuntarTrocado(resto, sep);
      var juntado := Juntar(resto, sep);
      assert Juntar(partes, sep) == primeira + [sep] + juntado;
      assert Juntar(partes, ',') == primeira + [','] + Juntar(resto, ',');
      SubstituirConcat(primeira + [sep], juntado, '\n', ',');
      SubstituirConcat(primeira, [sep], '\n', ',');
      assert Substituir([sep], '\n', ',') == [','];
    }
  }

  lemma SubstituirConcat(a: string, b: string, de: char, para: char)
    ensures Substituir(a + b, de, para) == Substituir(a, de, para) + Substituir(b, de, para)
  {
  }

  /** The form text "a, b" is stored as the list [a, b]. */
  lemma EmailsVirgulaEspaco(a: string, b: string)
    requires Limpo(a) && Limpo(b) && ',' !in a && ',' !in b
    ensures EmailsDeEntrada(EntradaTexto(a + ", " + b)) == [a, b]
  {
    var cauda := " " + b;
    assert a + ", " + b == a + [','] + cauda;
    DividirSemSeparador(cauda, ',');
    DividirPrefixo(a, cauda, ',');
    StripSemEspacosNasPontas(a);
    StripEspacoInicial(b);
    LimparDois(a, b);
  }

  lemma LimparDois(a: string, b: string)
    requires Limpo(a) && Limpo(b)
    ensures LimparItens([a, " " + b]) == [a, b]
  {
    var c := " " + b;
    var x, y := LimparItens([a]), LimparItens([c]);
    assert x == [a] by {
      LimparItensUm(a);
      StripSemEspacosNasPontas(a);
    }
    assert y == [b] by {
      LimparItensUm(c);
      StripEspacoInicial(b);
    }
    LimparItensConcat([a], [c]);
    assert [a] + [c] == [a, c];
  }

  /** Cleaning a single piece. */
  lemma LimparItensUm(c: string)
    ensures LimparItens([c]) == if Strip(c) == [] then [] else [Strip(c)]
  {
    assert [c][1..] == [];
  }

  /** Cleaning works piece by piece. */
  lemma {:induction false} LimparItensConcat(x: seq<string>, y: seq<string>)
    ensures LimparItens(x + y) == LimparItens(x) + LimparItens(y)
  {
    if x == [] {
      assert x + y == y;
    } else {
      assert (x + y)[0] == x[0];
      assert (x + y)[1..] == x[1..] + y;
      LimparItensConcat(x[1..], y);
    }
  }

  lemma StripEspacoInicial(b: string)
    requires Limpo(b)
    ensures Strip(" " + b) == b
  {
    StripIgnoraEspacosEmVolta(" ", b, "");
    assert " " + b + "" == " " + b;
    StripSemEspacosNasPontas(b);
  }

  /** Whole numbers written out with commas are read back unchanged. */
  lemma PrazosJuntarLer(prazos: seq<int>)
    requires |prazos| >= 1
    ensures PrazosDeEntrada(EntradaTexto(Juntar(Textos(prazos), ','))) == prazos
  {
    var textos := Textos(prazos);
    TextosLimpos(prazos);
    DividirJuntar(textos, ',');
    LimparItensLimpos(textos);
    LerInteirosTextos(prazos);
  }

  /** `[str(p) for p in prazos]` */
  function Textos(prazos: seq<int>): (r: seq<string>)
    ensures |r| == |prazos|
  {
    if prazos == [] then [] else [IntParaTexto(prazos[0])] + Textos(prazos[1..])
  }

  lemma {:induction false} TextosLimpos(prazos: seq<int>)
    ensures forall k :: 0 <= k < |prazos| ==> Limpo(Textos(prazos)[k]) && ',' !in Textos(prazos)[k]
    ensures forall t :: t in Textos(prazos) ==> Limpo(t)
  {
    if prazos != [] {
      TextosLimpos(prazos[1..]);
      IntParaTextoLimpo(prazos[0]);
    }
  }

  lemma IntParaTextoLimpo(i: int)
    ensures Limpo(IntParaTexto(i)) && ',' !in IntParaTexto(i)
  {
    var n: nat := if i < 0 then -i else i;
    var t := NatParaTexto(n);
    assert t[0] in t && t[|t| - 1] in t;
    assert !EhEspaco(t[0]) && !EhEspaco(t[|t| - 1]);
  }

  lemma {:induction false} LerInteirosTextos(prazos: seq<int>)
    ensures LerInteiros(Textos(prazos)) == Some(prazos)
  {
    if prazos != [] {
      LerInteiroIntParaTexto(prazos[0]);
      LerInteirosTextos(prazos[1..]);
      assert Textos(prazos)[1..] == Textos(prazos[1..]);
      Recompor(prazos);
    }
  }

  /** One piece that is not a whole number makes the setter fall back to the
      default offset. */
  lemma PrazosTextoInvalido(s: string, t: string)
    requires t in LimparItens(Dividir(s, ','))
    requires LerInteiro(t).None?
    ensures PrazosDeEntrada(EntradaTexto(s)) == [PRAZO_PADRAO]
  {
  }

  // ---------------------------------------------------------------------------
  // Overdue and upcoming documents

  /** The documents with a due date, as the notification queries select them
      (`SepararComVencimento` shows the split ignores the undated ones). */
  function ComVencimento(docs: seq<Documento>): (r: seq<Documento>)
    reads docs
    ensures forall d :: d in r ==> d in docs && d.dataVencimento.Some?
  {
    if docs == [] then []
    else
      var ultimo := docs[|docs| - 1];
      ComVencimento(docs[..|docs| - 1]) + (if ultimo.dataVencimento.Some? then [ultimo] else [])
  }

  /** `documentos_vencidos`: the overdue documents, in order (membership in
      `VencidosMembros`, order in `VencidosSubsequencia`). */
  function Vencidos(docs: seq<Documento>, hoje: int): (r: seq<Documento>)
    reads docs
    ensures |r| <= |docs|
  {
    if docs == [] then []
    else
      var ultimo := docs[|docs| - 1];
      Vencidos(docs[..|docs| - 1], hoje) + (if ultimo.EstaVencido(hoje) then [ultimo] else [])
  }

  /** `documentos_a_vencer`: the documents not overdue that need a notice, in
      order (membership in `AVencerMembros`, order in `AVencerSubsequencia`). */
  function AVencer(docs: seq<Documento>, hoje: int): (r: seq<Documento>)
    reads docs
    ensures |r| <= |docs|
  {
    if docs == [] then []
    else
      var ultimo := docs[|docs| - 1];
      AVencer(docs[..|docs| - 1], hoje)
      + (if !ultimo.EstaVencido(hoje) && ultimo.PrecisaNotificar(hoje) then [ultimo] else [])
  }

  /** Membership in the two lists, both directions. */
  lemma {:induction false} VencidosMembros(docs: seq<Documento>, hoje: int)
    ensures forall d :: d in Vencidos(docs, hoje) <==> d in docs && d.EstaVencido(hoje)
  {
    if docs != [] {
      var inicio := docs[..|docs| - 1];
      VencidosMembros(inicio, hoje);
      assert docs == inicio + [docs[|docs| - 1]];
    }
  }

  lemma {:induction false} AVencerMembros(docs: seq<Documento>, hoje: int)
    ensures forall d :: d in AVencer(docs, hoje) <==> d in docs && !d.EstaVencido(hoje) && d.PrecisaNotificar(hoje)
  {
    if docs != [] {
      var inicio := docs[..|docs| - 1];
      AVencerMembros(inicio, hoje);
      assert docs == inicio + [docs[|docs| - 1]];
    }
  }

  /** No document is in both lists. */
  lemma VencidosAVencerDisjuntos(docs: seq<Documento>, hoje: int)
    ensures forall d :: d in Vencidos(docs, hoje) ==> d !in AVencer(docs, hoje)
  {
    VencidosMembros(docs, hoje);
    AVencerMembros(docs, hoje);
  }

  /** `a` is `b` with some elements left out, the rest in the same order. */
  predicate Subsequencia<T(==)>(a: seq<T>, b: seq<T>)
    decreases |b|
  {
    if a == [] then true
    else if b == [] then false
    else if a[|a| - 1] == b[|b| - 1] then Subsequencia(a[..|a| - 1], b[..|b| - 1])
    else Subsequencia(a, b[..|b| - 1])
  }

  lemma {:induction false} SubsequenciaAnexar<T>(a: seq<T>, b: seq<T>, x: T)
    requires Subsequencia(a, b)
    ensures Subsequencia(a, b + [x]) && Subsequencia(a + [x], b + [x])
  {
    assert (a + [x])[..|a + [x]| - 1] == a;
    assert (b + [x])[..|b + [x]| - 1] == b;
    if a != [] && a[|a| - 1] == x {
      SubsequenciaAnexarIgual(a, b);
    }
  }

  /** A subsequence ending in `x` stays one when `x` is appended to the
      longer sequence too. */
  lemma {:induction false} SubsequenciaAnexarIgual<T>(a: seq<T>, b: seq<T>)
    requires a != [] && Subsequencia(a, b)
    ensures Subsequencia(a[..|a| - 1], b)
    decreases |b|, |a|
  {
    if b != [] {
      if a[|a| - 1] == b[|b| - 1] {
        SubsequenciaRecua(a[..|a| - 1], b);
      } else {
        SubsequenciaAnexarIgual(a, b[..|b| - 1]);
        SubsequenciaRecua(a[..|a| - 1], b);
      }
    }
  }

  /** A subsequence of a prefix is a subsequence of the whole. */
  lemma {:induction false} SubsequenciaRecua<T>(a: seq<T>, b: seq<T>)
    requires b != [] && Subsequencia(a, b[..|b| - 1])
    ensures Subsequencia(a, b)
    decreases |b|, |a|
  {
    if a != [] && a[|a| - 1] == b[|b| - 1] {
      SubsequenciaAnexarIgual(a, b[..|b| - 1]);
    }
  }

  lemma {:induction false} VencidosSubsequencia(docs: seq<Documento>, hoje: int)
    ensures Subsequencia(Vencidos(docs, hoje), docs)
  {
    if docs != [] {
      var inicio, ultimo := docs[..|docs| - 1], docs[|docs| - 1];
      var antes := Vencidos(inicio, hoje);
      VencidosSubsequencia(inicio, hoje);
      SubsequenciaAnexar(antes, inicio, ultimo);
      assert docs == inicio + [ultimo];
      if ultimo.EstaVencido(hoje) {
        assert Vencidos(docs, hoje) == antes + [ultimo];
      } else {
        assert Vencidos(docs, hoje) == antes;
      }
    }
  }

  lemma {:induction false} AVencerSubsequencia(docs: seq<Documento>, hoje: int)
    ensures Subsequencia(AVencer(docs, hoje), docs)
  {
    if docs != [] {
      var inicio, ultimo := docs[..|docs| - 1], docs[|docs| - 1];
      var antes := AVencer(inicio, hoje);
      AVencerSubsequencia(inicio, hoje);
      SubsequenciaAnexar(antes, inicio, ultimo);
      assert docs == inicio + [ultimo];
      if !ultimo.EstaVencido(hoje) && ultimo.PrecisaNotificar(hoje) {
        assert AVencer(docs, hoje) == antes + [ultimo];
      } else {
        assert AVencer(docs, hoje) == antes;
      }
    }
  }

  /** Together the two lists never hold more documents than were given. */
  lemma {:induction false} SepararTamanho(docs: seq<Documento>, hoje: int)
    ensures |Vencidos(docs, hoje)| + |AVencer(docs, hoje)| <= |docs|
  {
    if docs != [] {
      var ultimo := docs[|docs| - 1];
      SepararTamanho(docs[..|docs| - 1], hoje);
      if ultimo.PrecisaNotificar(hoje) {
        PrecisaNotificarNaoVencido(ultimo, hoje);
      }
    }
  }

  /** Documents without a due date are in neither list, so selecting the
      dated documents first changes nothing. */
  lemma {:induction false} SepararComVencimento(docs: seq<Documento>, hoje: int)
    ensures Vencidos(ComVencimento(docs), hoje) == Vencidos(docs, hoje)
    ensures AVencer(ComVencimento(docs), hoje) == AVencer(docs, hoje)
  {
    if docs != [] {
      var inicio := docs[..|docs| - 1];
      var ultimo := docs[|docs| - 1];
      SepararComVencimento(inicio, hoje);
      var c := ComVencimento(inicio);
      if ultimo.dataVencimento.Some? {
        assert ComVencimento(docs) == c + [ultimo];
        assert (c + [ultimo])[..|c|] == c;
      } else {
        assert ComVencimento(docs) == c;
      }
    }
  }
}
