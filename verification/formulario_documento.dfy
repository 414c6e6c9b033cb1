/** The document form: the offered notification offsets and the validators of
    the e-mail and WhatsApp lists typed into it. */
module FormularioDocumento {
  import opened Texto
  import opened Documentos

  // ---------------------------------------------------------------------------
  // Offered offsets

  /** `PRAZOS_NOTIFICACAO`: each offset with its label. */
  const PRAZOS_NOTIFICACAO: seq<(nat, string)> :=
    [(30, "30 dias antes"), (15, "15 dias antes"), (7, "7 dias antes"), (3, "3 dias antes"), (1, "1 dia antes")]

  /** The offsets the form offers are 30, 15, 7, 3 and 1 days, from the
      farthest to the nearest, and the default offset of a document is among
      them. */
  lemma PrazosOferecidos()
    ensures |PRAZOS_NOTIFICACAO| == 5
    ensures forall i :: 0 <= i < |PRAZOS_NOTIFICACAO| ==> PRAZOS_NOTIFICACAO[i].0 > 0
    ensures forall i, j :: 0 <= i < j < |PRAZOS_NOTIFICACAO| ==> PRAZOS_NOTIFICACAO[i].0 > PRAZOS_NOTIFICACAO[j].0
    ensures exists i :: 0 <= i < |PRAZOS_NOTIFICACAO| && PRAZOS_NOTIFICACAO[i].0 == PRAZO_PADRAO
  {
    assert PRAZOS_NOTIFICACAO[0].0 == PRAZO_PADRAO;
  }

  // ---------------------------------------------------------------------------
  // Splitting the field

  /** The characters of the class `[\n,]`. */
  predicate Separador(c: char) {
    c == '\n' || c == ','
  }

  /** `re.split(r'[\n,]+', s)`: the pieces between maximal runs of separators;
      a run at either end leaves an empty piece there. */
  function DividirSequencias(s: string): (partes: seq<string>)
    ensures |partes| >= 1
    ensures forall k :: 0 <= k < |partes| ==> forall c :: c in partes[k] ==> !Separador(c)
  {
    if s == [] then [""]
    else
      var resto := DividirSequencias(s[1..]);
      if Separador(s[0]) then
        if |s| > 1 && Separador(s[1]) then resto else [""] + resto
      else [[s[0]] + resto[0]] + resto[1..]
  }

  /** A piece free of separators, then one separator, then a text that does
      not start with one: the piece comes out first. */
  lemma {:induction false} DividirSequenciasPrefixo(p: string, sep: char, t: string)
    requires Separador(sep)
    requires forall c :: c in p ==> !Separador(c)
    requires t == [] || !Separador(t[0])
    ensures DividirSequencias(p + [sep] + t) == [p] + DividirSequencias(t)
  {
    if p != [] {
      assert (p + [sep] + t)[1..] == p[1..] + [sep] + t;
      DividirSequenciasPrefixo(p[1..], sep, t);
      assert [p[0]] + p[1..] == p;
    } else {
      assert (p + [sep] + t)[1..] == t;
    }
  }

  lemma {:induction false} DividirSequenciasSemSeparador(s: string)
    requires forall c :: c in s ==> !Separador(c)
    ensures DividirSequencias(s) == [s]
  {
    if s != [] {
      DividirSequenciasSemSeparador(s[1..]);
      assert [s[0]] + s[1..] == s;
    }
  }

  /** The entries of the field: the stripped, non-empty pieces. */
  function Entradas(campo: string): (r: seq<string>)
    ensures forall t :: t in r ==> Limpo(t) && forall c :: c in t ==> !Separador(c)
  {
    var partes := DividirSequencias(campo);
    LimparItensSemSeparador(partes, '\n');
    LimparItensSemSeparador(partes, ',');
    LimparItens(partes)
  }

  /** Clean entries joined with commas are read back as they were. */
  lemma EntradasJuntar(itens: seq<string>)
    requires |itens| >= 1
    requires forall t :: t in itens ==> Limpo(t) && forall c :: c in t ==> !Separador(c)
    ensures Entradas(Juntar(itens, ',')) == itens
  {
    DividirSequenciasJuntar(itens);
    LimparItensLimpos(itens);
  }

  lemma {:induction false} DividirSequenciasJuntar(itens: seq<string>)
    requires |itens| >= 1
    requires forall t :: t in itens ==> Limpo(t) && forall c :: c in t ==> !Separador(c)
    ensures DividirSequencias(Juntar(itens, ',')) == itens
  {
    assert itens[0] in itens;
    if |itens| == 1 {
      DividirSequenciasSemSeparador(itens[0]);
    } else {
      var resto := itens[1..];
      assert forall t :: t in resto ==> t in itens;
      DividirSequenciasJuntar(resto);
      assert resto[0] in itens;
      var t := Juntar(resto, ',');
      assert t[0] == resto[0][0] by {
        if |resto| > 1 {
          assert t == resto[0] + [','] + Juntar(resto[1..], ',');
        }
      }
      DividirSequenciasPrefixo(itens[0], ',', t);
      assert Juntar(itens, ',') == itens[0] + [','] + t;
      Recompor(itens);
    }
  }

  // ---------------------------------------------------------------------------
  // First invalid entry

  /** The index of the first entry the check refuses. */
  function PrimeiraInvalida(itens: seq<string>, valida: string -> bool): (r: Option<nat>)
    ensures r.None? <==> forall j :: 0 <= j < |itens| ==> valida(itens[j])
    ensures r.Some? ==> r.value < |itens| && !valida(itens[r.value])
                        && forall j :: 0 <= j < r.value ==> valida(itens[j])
  {
    if itens == [] then None
    else if !valida(itens[0]) then Some(0)
    else
      var resto := PrimeiraInvalida(itens[1..], valida);
      if resto.None? then
        assert forall j :: 1 <= j < |itens| ==> itens[j] == itens[1..][j - 1];
        None
      else
        assert forall j :: 1 <= j <= resto.value ==> itens[j] == itens[1..][j - 1];
        Some(resto.value + 1)
  }

  /** The outcome of a field validator: `None` passes, `Some(m)` raises a
      validation error with the message `m`, which names the first refused
      entry after `prefixo`. */
  function Validar(itens: seq<string>, valida: string -> bool, prefixo: string): (r: Option<string>)
    ensures r.None? <==> forall t :: t in itens ==> valida(t)
    ensures r.Some? ==> exists i :: 0 <= i < |itens| && !valida(itens[i])
                                    && (forall j :: 0 <= j < i ==> valida(itens[j]))
                                    && r.value == prefixo + itens[i]
  {
    var i := PrimeiraInvalida(itens, valida);
    if i.None? then None else Some(prefixo + itens[i.value])
  }

  // ---------------------------------------------------------------------------
  // The two patterns

  /** `^[^@]+@[^@]+\.[^@]+$`, decided directly: one '@', not first, and a
      '.' with a character on each side between it and the end. The '\n'
      that `$` lets through at the end is already covered: `[^@]+` takes it. */
  predicate EmailSimples(t: string) {
    match PrimeiraOcorrencia(t, '@')
    case None => false
    case Some(i) =>
      0 < i && (forall j :: i < j < |t| ==> t[j] != '@')
      && exists k :: i + 1 < k < |t| - 1 && t[k] == '.'
  }

  /** The pattern read as its parts. */
  ghost predicate CasaEmailSimples(t: string) {
    exists a: string, b: string, c: string ::
      a != [] && b != [] && c != [] && '@' !in a && '@' !in b && '@' !in c
      && t == a + ['@'] + b + ['.'] + c
  }

  lemma EmailSimplesCorreto(t: string)
    ensures EmailSimples(t) <==> CasaEmailSimples(t)
  {
    if EmailSimples(t) {
      EmailSimplesPartes(t);
    }
    if CasaEmailSimples(t) {
      var a: string, b: string, c: string :|
        a != [] && b != [] && c != [] && '@' !in a && '@' !in b && '@' !in c
        && t == a + ['@'] + b + ['.'] + c;
      PartesEmailSimples(a, b, c);
    }
  }

  lemma EmailSimplesPartes(t: string)
    requires EmailSimples(t)
    ensures CasaEmailSimples(t)
  {
    var i := PrimeiraOcorrencia(t, '@').value;
    var k :| i + 1 < k < |t| - 1 && t[k] == '.';
    var a, b, c := t[..i], t[i + 1..k], t[k + 1..];
    assert t == a + ['@'] + b + ['.'] + c;
    assert '@' !in b by {
      forall j | 0 <= j < |b| ensures b[j] != '@' {
        assert b[j] == t[i + 1 + j];
      }
    }
    assert '@' !in c by {
      forall j | 0 <= j < |c| ensures c[j] != '@' {
        assert c[j] == t[k + 1 + j];
      }
    }
  }

  lemma PartesEmailSimples(a: string, b: string, c: string)
    requires a != [] && b != [] && c != [] && '@' !in a && '@' !in b && '@' !in c
    ensures EmailSimples(a + ['@'] + b + ['.'] + c)
  {
    var t := a + ['@'] + b + ['.'] + c;
    var i := |a|;
    assert t[i] == '@';
    assert forall j :: 0 <= j < i ==> t[j] == a[j];
    assert PrimeiraOcorrencia(t, '@') == Some(i);
    forall j | i < j < |t| ensures t[j] != '@' {
      if j < i + 1 + |b| {
        assert t[j] == b[j - i - 1];
      } else if j > i + 1 + |b| {
        assert t[j] == c[j - i - 2 - |b|];
      }
    }
    assert t[i + 1 + |b|] == '.';
  }

  /** `^\+\d{10,15}`, the whole entry. */
  predicate NumeroInternacional(t: string) {
    11 <= |t| <= 16 && t[0] == '+' && forall j :: 1 <= j < |t| ==> EhDigito(t[j])
  }

  /** `re.match(r'^\+\d{10,15}$', t)`: `$` also matches just before a final '\n'. */
  predicate WhatsappValido(t: string) {
    NumeroInternacional(t)
    || (|t| >= 1 && t[|t| - 1] == '\n' && NumeroInternacional(t[..|t| - 1]))
  }

  /** An entry as the field yields it never ends in '\n', so on entries the
      pattern is exactly a '+' and 10 to 15 digits. */
  lemma WhatsappEntrada(t: string)
    requires Limpo(t)
    ensures WhatsappValido(t) <==> NumeroInternacional(t)
  {
    assert EhEspaco('\n');
  }

  // ---------------------------------------------------------------------------
  // The validators

  const MENSAGEM_EMAIL: string := "E-mail inválido: "
  const MENSAGEM_WHATSAPP: string := "Número de WhatsApp inválido (use formato internacional, ex: +5511999999999): "

  /** `validate_emails(form, field)`. An empty field passes. */
  function ValidarEmails(campo: string): (r: Option<string>)
    ensures campo == [] ==> r.None?
    ensures r.None? <==> forall t :: t in Entradas(campo) ==> EmailSimples(t)
    ensures r.Some? ==> var itens := Entradas(campo);
                        exists i :: 0 <= i < |itens| && !EmailSimples(itens[i])
                                    && (forall j :: 0 <= j < i ==> EmailSimples(itens[j]))
                                    && r.value == MENSAGEM_EMAIL + itens[i]
  {
    if campo == [] then None else Validar(Entradas(campo), EmailSimples, MENSAGEM_EMAIL)
  }

  /** `validate_whatsapps(form, field)`. An empty field passes. */
  function ValidarWhatsapps(campo: string): (r: Option<string>)
    ensures campo == [] ==> r.None?
    ensures r.None? <==> forall t :: t in Entradas(campo) ==> NumeroInternacional(t)
    ensures r.Some? ==> var itens := Entradas(campo);
                        exists i :: 0 <= i < |itens| && !NumeroInternacional(itens[i])
                                    && (forall j :: 0 <= j < i ==> NumeroInternacional(itens[j]))
                                    && r.value == MENSAGEM_WHATSAPP + itens[i]
  {
    if campo == [] then None
    else
      var itens := Entradas(campo);
      forall t | t in itens
        ensures WhatsappValido(t) <==> NumeroInternacional(t)
      {
        WhatsappEntrada(t);
      }
      Validar(itens, WhatsappValido, MENSAGEM_WHATSAPP)
  }
}
