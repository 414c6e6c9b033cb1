/** The environment-variable helper of the application's configuration. */
module Configuracao {
  import opened Texto

  /** The texts `str_to_bool` reads as true, compared after strip() and lower(). */
  const TEXTOS_VERDADEIROS: set<string> := {"true", "1", "yes", "on"}

  /** `str_to_bool(value, default)`. `valor` is `str(value)`, or None when the
      variable is unset. */
  function StrToBool(valor: Option<string>, padrao: bool): (r: bool)
    ensures valor.None? ==> r == padrao
    ensures valor.Some? ==> (r <==> Minusculas(Strip(valor.value)) in TEXTOS_VERDADEIROS)
  {
    match valor
    case None => padrao
    case Some(s) => Minusculas(Strip(s)) in TEXTOS_VERDADEIROS
  }

  predicate SoEspacos(s: string) {
    forall i :: 0 <= i < |s| ==> EhEspaco(s[i])
  }

  /** A value's stripped text is a word, with whitespace around it. */
  predicate Cercada(s: string, i: int, j: int) {
    0 <= i <= j <= |s| && SoEspacos(s[..i]) && SoEspacos(s[j..])
  }

  predicate PalavraVerdadeira(w: string) {
    Minusculas(w) in TEXTOS_VERDADEIROS
  }

  /** What `str_to_bool` accepts, stated without `strip()`: a value is true
      exactly when it is one of the four words, in any letter case, with
      nothing but whitespace before and after it. */
  lemma StrToBoolSignificado(s: string, padrao: bool)
    ensures StrToBool(Some(s), padrao)
            <==> exists i, j :: Cercada(s, i, j) && PalavraVerdadeira(s[i..j])
  {
    if StrToBool(Some(s), padrao) {
      var i, j := StrToBoolPalavra(s, padrao);
    }
    if exists i, j :: Cercada(s, i, j) && PalavraVerdadeira(s[i..j]) {
      var i, j :| Cercada(s, i, j) && PalavraVerdadeira(s[i..j]);
      PalavraStrToBool(s, i, j, padrao);
    }
  }

  /** A true value is a true word with whitespace around it: the one
      `strip()` leaves. */
  lemma StrToBoolPalavra(s: string, padrao: bool) returns (i: int, j: int)
    requires StrToBool(Some(s), padrao)
    ensures Cercada(s, i, j) && PalavraVerdadeira(s[i..j])
  {
    i, j := StripCercada(s);
  }

  /** `strip()` keeps a slice with only whitespace before and after it. */
  lemma StripCercada(s: string) returns (i: int, j: int)
    ensures Cercada(s, i, j) && s[i..j] == Strip(s)
  {
    i := |s| - |TirarEspacosInicio(s)|;
    j := i + |Strip(s)|;
    StripFatia(s);
    StripCortaEspacos(s);
    forall k | 0 <= k < i ensures EhEspaco(s[..i][k]) {
      assert s[..i][k] == s[k];
    }
    forall k | 0 <= k < |s| - j ensures EhEspaco(s[j..][k]) {
      assert s[j..][k] == s[j + k];
    }
  }

  /** A true word with whitespace around it is a true value. */
  lemma PalavraStrToBool(s: string, i: int, j: int, padrao: bool)
    requires Cercada(s, i, j) && PalavraVerdadeira(s[i..j])
    ensures StrToBool(Some(s), padrao)
  {
    var p, w, q := s[..i], s[i..j], s[j..];
    PalavraSemEspacosNasPontas(w);
    TresPartes(s, i, j);
    StripIgnoraEspacosEmVolta(p, w, q);
    StripSemEspacosNasPontas(w);
    assert Strip(s) == w;
  }

  lemma TresPartes<T>(s: seq<T>, i: int, j: int)
    requires 0 <= i <= j <= |s|
    ensures s[..i] + s[i..j] + s[j..] == s
  {
  }

  /** A text that lower-cases to one of the words neither starts nor ends
      with whitespace. */
  lemma PalavraSemEspacosNasPontas(w: string)
    requires Minusculas(w) in TEXTOS_VERDADEIROS
    ensures w != [] && !EhEspaco(w[0]) && !EhEspaco(w[|w| - 1])
  {
    var m := Minusculas(w);
    PalavraAscii(m);
    AsciiNaoEspaco(m[0]);
    AsciiNaoEspaco(m[|m| - 1]);
    MinusculaPreservaEspaco(w[0]);
    MinusculaPreservaEspaco(w[|w| - 1]);
  }

  lemma PalavraAscii(m: string)
    requires m in TEXTOS_VERDADEIROS
    ensures m != [] && '0' <= m[0] <= 'z' && '0' <= m[|m| - 1] <= 'z'
  {
  }

  lemma AsciiNaoEspaco(c: char)
    requires '0' <= c <= 'z'
    ensures !EhEspaco(c)
  {
  }

  /** For a value that is set, the default plays no part. */
  lemma StrToBoolIgnoraPadrao(s: string, a: bool, b: bool)
    ensures StrToBool(Some(s), a) == StrToBool(Some(s), b)
  {
  }

  /** Whitespace around the value does not change the verdict. */
  lemma StrToBoolIgnoraEspacos(p: string, s: string, q: string, padrao: bool)
    requires forall i :: 0 <= i < |p| ==> EhEspaco(p[i])
    requires forall i :: 0 <= i < |q| ==> EhEspaco(q[i])
    ensures StrToBool(Some(p + s + q), padrao) == StrToBool(Some(s), padrao)
  {
    StripIgnoraEspacosEmVolta(p, s, q);
  }

  /** Two values that differ only in letter case get the same verdict. */
  lemma StrToBoolIgnoraCaixa(s: string, t: string, padrao: bool)
    requires Minusculas(s) == Minusculas(t)
    ensures StrToBool(Some(s), padrao) == StrToBool(Some(t), padrao)
  {
    MinusculasStrip(s);
    MinusculasStrip(t);
  }

  lemma StrToBoolPalavraCercada(p: string, palavra: string, q: string, minuscula: string)
    requires forall i :: 0 <= i < |p| ==> EhEspaco(p[i])
    requires forall i :: 0 <= i < |q| ==> EhEspaco(q[i])
    requires palavra != [] && !EhEspaco(palavra[0]) && !EhEspaco(palavra[|palavra| - 1])
    requires Minusculas(palavra) == minuscula
    ensures StrToBool(Some(p + palavra + q), false) == (minuscula in TEXTOS_VERDADEIROS)
  {
    StripIgnoraEspacosEmVolta(p, palavra, q);
    StripSemEspacosNasPontas(palavra);
  }

  /** `str_to_bool(" TRUE ")` is True. */
  lemma StrToBoolExemploVerdadeiro(valor: string, palavra: string)
    requires palavra == "TRUE" && valor == " " + palavra + " "
    ensures StrToBool(Some(valor), false)
  {
    assert Minusculas(palavra) == "true";
    StrToBoolPalavraCercada(" ", palavra, " ", "true");
  }

  /** `str_to_bool(" off ", True)` is False. */
  lemma StrToBoolExemploFalso(valor: string, palavra: string)
    requires palavra == "off" && valor == " " + palavra + " "
    ensures !StrToBool(Some(valor), true)
  {
    StrToBoolPalavraCercada(" ", palavra, " ", "off");
  }
}
