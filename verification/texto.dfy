/** Text helpers with Python's `str` semantics, shared by every part of the core:
    whitespace and `strip()`, `split(sep)`, ASCII `lower()`, decimal rendering of
    integers and the `int(text)` parser. */
module Texto {

  datatype Option<+T> = None | Some(value: T)

  // ---------------------------------------------------------------------------
  // Characters

  /** Python's `str.isspace()`: the characters `strip()` removes. */
  predicate EhEspaco(c: char) {
    c == ' ' || ('\t' <= c <= '\r') || ('\U{1c}' <= c <= '\U{1f}')
    || c == '\U{85}' || c == '\U{a0}' || c == '\U{1680}'
    || ('\U{2000}' <= c <= '\U{200a}') || c == '\U{2028}' || c == '\U{2029}'
    || c == '\U{202f}' || c == '\U{205f}' || c == '\U{3000}'
  }

  /** ASCII decimal digit (`[0-9]`). */
  predicate EhDigito(c: char) {
    '0' <= c <= '9'
  }

  /** ASCII letter (`[a-zA-Z]`). */
  predicate EhLetra(c: char) {
    ('a' <= c <= 'z') || ('A' <= c <= 'Z')
  }

  function ValorDigito(c: char): (d: nat)
    requires EhDigito(c)
    ensures d < 10
  {
    c as int - '0' as int
  }

  function CharDigito(d: nat): (c: char)
    requires d < 10
    ensures EhDigito(c) && ValorDigito(c) == d
  {
    ('0' as int + d) as char
  }

  predicate SoDigitos(s: string) {
    forall i :: 0 <= i < |s| ==> EhDigito(s[i])
  }

  /** Concatenation regroups freely. */
  lemma Reagrupar<T>(a: seq<T>, b: seq<T>, c: seq<T>)
    ensures a + b + c == a + (b + c)
  {
  }

  /** A non-empty sequence is its head followed by its tail. */
  lemma Recompor<T>(s: seq<T>)
    requires s != []
    ensures [s[0]] + s[1..] == s
  {
  }

  /** A prefix of a suffix is a slice. */
  lemma FatiaDeFatia<T>(s: seq<T>, a: nat, k: nat)
    requires a + k <= |s|
    ensures s[a..][..k] == s[a..a + k]
  {
  }

  lemma MultisetSufixo<T>(s: seq<T>, k: nat)
    requires k <= |s|
    ensures multiset(s[k..]) <= multiset(s)
  {
    assert s == s[..k] + s[k..];
  }

  lemma MultisetCabeca<T>(s: seq<T>)
    requires s != []
    ensures multiset(s) == multiset([s[0]]) + multiset(s[1..])
  {
    assert s == [s[0]] + s[1..];
  }

  lemma MultisetMesmaCabeca<T>(x: T, a: seq<T>, b: seq<T>)
    requires multiset(a) <= multiset(b)
    ensures multiset([x] + a) <= multiset([x] + b)
  {
    assert multiset([x] + a) == multiset([x]) + multiset(a);
    assert multiset([x] + b) == multiset([x]) + multiset(b);
  }

  // ---------------------------------------------------------------------------
  // Searching

  /** Index of the first `c` in `s` (`s.find(c)`), None when there is none. */
  function PrimeiraOcorrencia(s: string, c: char): (r: Option<nat>)
    ensures r.None? ==> c !in s
    ensures r.Some? ==> r.value < |s| && s[r.value] == c && c !in s[..r.value]
  {
    if s == [] then None
    else if s[0] == c then Some(0)
    else match PrimeiraOcorrencia(s[1..], c)
      case None => None
      case Some(k) =>
        assert s[..k + 1] == [s[0]] + s[1..][..k];
        Some(k + 1)
  }

  /** Index of the last `c` in `s` (`s.rfind(c)`), None when there is none. */
  function UltimaOcorrencia(s: string, c: char): (r: Option<nat>)
    ensures r.None? ==> c !in s
    ensures r.Some? ==> r.value < |s| && s[r.value] == c && c !in s[r.value + 1..]
  {
    if s == [] then None
    else if s[|s| - 1] == c then Some(|s| - 1)
    else match UltimaOcorrencia(s[..|s| - 1], c)
      case None =>
        assert s == s[..|s| - 1] + [s[|s| - 1]];
        None
      case Some(k) =>
        assert s[k + 1..] == s[..|s| - 1][k + 1..] + [s[|s| - 1]];
        Some(k)
  }

  /** A `c` with no other `c` after it is the last one. */
  lemma UltimaOcorrenciaUnica(s: string, c: char, k: nat)
    requires k < |s| && s[k] == c && c !in s[k + 1..]
    ensures UltimaOcorrencia(s, c) == Some(k)
  {
    assert s[k] in s;
  }

  // ---------------------------------------------------------------------------
  // strip() and lower()

  /** `s.lstrip()` */
  function TirarEspacosInicio(s: string): (r: string)
    ensures |r| <= |s|
    ensures r != [] ==> r[|r| - 1] == s[|s| - 1]
    ensures r == [] || !EhEspaco(r[0])
  {
    if s != [] && EhEspaco(s[0]) then TirarEspacosInicio(s[1..]) else s
  }

  /** `s.rstrip()` */
  function TirarEspacosFim(s: string): (r: string)
    ensures |r| <= |s|
    ensures r != [] ==> r[0] == s[0]
    ensures r == [] || !EhEspaco(r[|r| - 1])
  {
    if s != [] && EhEspaco(s[|s| - 1]) then TirarEspacosFim(s[..|s| - 1]) else s
  }

  /** `lstrip()` leaves a suffix of the text. */
  lemma {:induction false} TirarInicioSufixo(s: string)
    ensures TirarEspacosInicio(s) == s[|s| - |TirarEspacosInicio(s)|..]
  {
    if s != [] && EhEspaco(s[0]) {
      TirarInicioSufixo(s[1..]);
    }
  }

  /** `rstrip()` leaves a prefix of the text. */
  lemma {:induction false} TirarFimPrefixo(s: string)
    ensures TirarEspacosFim(s) == s[..|TirarEspacosFim(s)|]
  {
    if s != [] && EhEspaco(s[|s| - 1]) {
      TirarFimPrefixo(s[..|s| - 1]);
    }
  }

  /** `lstrip()` cuts off whitespace only. */
  lemma {:induction false} TirarInicioCortaEspacos(s: string)
    ensures forall i :: 0 <= i < |s| - |TirarEspacosInicio(s)| ==> EhEspaco(s[i])
  {
    if s != [] && EhEspaco(s[0]) {
      TirarInicioCortaEspacos(s[1..]);
      forall i | 1 <= i < |s| - |TirarEspacosInicio(s)|
        ensures EhEspaco(s[i])
      {
        assert s[i] == s[1..][i - 1];
      }
    }
  }

  /** `rstrip()` cuts off whitespace only. */
  lemma {:induction false} TirarFimCortaEspacos(s: string)
    ensures forall i :: |TirarEspacosFim(s)| <= i < |s| ==> EhEspaco(s[i])
  {
    if s != [] && EhEspaco(s[|s| - 1]) {
      TirarFimCortaEspacos(s[..|s| - 1]);
      forall i | |TirarEspacosFim(s)| <= i < |s| - 1
        ensures EhEspaco(s[i])
      {
        assert s[i] == s[..|s| - 1][i];
      }
    }
  }

  /** `s.strip()`: a slice of `s` that neither starts nor ends with whitespace. */
  function Strip(s: string): (r: string)
    ensures |r| <= |s|
    ensures r == [] || (!EhEspaco(r[0]) && !EhEspaco(r[|r| - 1]))
  {
    TirarEspacosFim(TirarEspacosInicio(s))
  }

  /** Where the result of `strip()` sits in the text. */
  lemma StripFatia(s: string)
    ensures var a := |s| - |TirarEspacosInicio(s)|;
            a + |Strip(s)| <= |s| && Strip(s) == s[a..a + |Strip(s)|]
  {
    var l := TirarEspacosInicio(s);
    TirarInicioSufixo(s);
    TirarFimPrefixo(l);
    FatiaDeFatia(s, |s| - |l|, |TirarEspacosFim(l)|);
  }

  /** Everything `s.strip()` cuts off, on either side, is whitespace; with the
      contract of `Strip`, the result is the longest such slice. */
  lemma StripCortaEspacos(s: string)
    ensures var a := |s| - |TirarEspacosInicio(s)|;
            var r := Strip(s);
            (forall i :: 0 <= i < a ==> EhEspaco(s[i]))
            && (forall i :: a + |r| <= i < |s| ==> EhEspaco(s[i]))
  {
    var l := TirarEspacosInicio(s);
    var r := TirarEspacosFim(l);
    var a := |s| - |l|;
    StripFatia(s);
    TirarInicioSufixo(s);
    TirarInicioCortaEspacos(s);
    TirarFimCortaEspacos(l);
    forall i | a + |r| <= i < |s|
      ensures EhEspaco(s[i])
    {
      assert s[i] == l[i - a];
    }
  }

  lemma {:induction false} StripSemEspacosNasPontas(s: string)
    requires s == [] || (!EhEspaco(s[0]) && !EhEspaco(s[|s| - 1]))
    ensures Strip(s) == s
  {
  }

  lemma {:induction false} TirarInicioPrefixoEspacos(p: string, x: string)
    requires forall i :: 0 <= i < |p| ==> EhEspaco(p[i])
    ensures TirarEspacosInicio(p + x) == TirarEspacosInicio(x)
  {
    if p != [] {
      assert (p + x)[1..] == p[1..] + x;
      TirarInicioPrefixoEspacos(p[1..], x);
    } else {
      assert p + x == x;
    }
  }

  lemma {:induction false} TirarFimSufixoEspacos(x: string, q: string)
    requires forall i :: 0 <= i < |q| ==> EhEspaco(q[i])
    ensures TirarEspacosFim(x + q) == TirarEspacosFim(x)
  {
    if q != [] {
      assert (x + q)[..|x + q| - 1] == x + q[..|q| - 1];
      TirarFimSufixoEspacos(x, q[..|q| - 1]);
    } else {
      assert x + q == x;
    }
  }

  lemma {:induction false} TirarInicioConcat(s: string, q: string)
    requires forall i :: 0 <= i < |q| ==> EhEspaco(q[i])
    ensures TirarEspacosInicio(s) != [] ==> TirarEspacosInicio(s + q) == TirarEspacosInicio(s) + q
    ensures TirarEspacosInicio(s) == [] ==> TirarEspacosInicio(s + q) == []
  {
    if s == [] {
      assert s + q == q;
      TirarInicioPrefixoEspacos(q, []);
      assert q + [] == q;
    } else if EhEspaco(s[0]) {
      assert (s + q)[1..] == s[1..] + q;
      TirarInicioConcat(s[1..], q);
    }
  }

  /** Surrounding `s` with whitespace does not change `s.strip()`. */
  lemma StripIgnoraEspacosEmVolta(p: string, s: string, q: string)
    requires forall i :: 0 <= i < |p| ==> EhEspaco(p[i])
    requires forall i :: 0 <= i < |q| ==> EhEspaco(q[i])
    ensures Strip(p + s + q) == Strip(s)
  {
    assert p + s + q == p + (s + q);
    TirarInicioPrefixoEspacos(p, s + q);
    TirarInicioConcat(s, q);
    if TirarEspacosInicio(s) != [] {
      TirarFimSufixoEspacos(TirarEspacosInicio(s), q);
    }
  }

  /** Python's `str.lower()` restricted to ASCII letters. */
  function MinusculaChar(c: char): (r: char)
    ensures EhLetra(c) ==> 'a' <= r <= 'z'
    ensures !('A' <= c <= 'Z') ==> r == c
  {
    if 'A' <= c <= 'Z' then (c as int - 'A' as int + 'a' as int) as char else c
  }

  function Minusculas(s: string): (r: string)
    ensures |r| == |s|
    ensures forall i :: 0 <= i < |s| ==> r[i] == MinusculaChar(s[i])
  {
    if s == [] then [] else [MinusculaChar(s[0])] + Minusculas(s[1..])
  }

  lemma MinusculaPreservaEspaco(c: char)
    ensures EhEspaco(MinusculaChar(c)) == EhEspaco(c)
  {
  }

  lemma {:induction false} MinusculasTirarInicio(s: string)
    ensures Minusculas(TirarEspacosInicio(s)) == TirarEspacosInicio(Minusculas(s))
  {
    if s != [] {
      MinusculaPreservaEspaco(s[0]);
      assert Minusculas(s)[1..] == Minusculas(s[1..]);
      MinusculasTirarInicio(s[1..]);
    }
  }

  lemma {:induction false} MinusculasTirarFim(s: string)
    ensures Minusculas(TirarEspacosFim(s)) == TirarEspacosFim(Minusculas(s))
  {
    if s != [] {
      MinusculaPreservaEspaco(s[|s| - 1]);
      assert Minusculas(s)[..|s| - 1] == Minusculas(s[..|s| - 1]);
      MinusculasTirarFim(s[..|s| - 1]);
    }
  }

  /** Lower-casing and stripping commute: `s.strip().lower() == s.lower().strip()`. */
  lemma MinusculasStrip(s: string)
    ensures Minusculas(Strip(s)) == Strip(Minusculas(s))
  {
    MinusculasTirarInicio(s);
    MinusculasTirarFim(TirarEspacosInicio(s));
  }

  // ---------------------------------------------------------------------------
  // split(sep), join, replace

  /** `s.split(sep)` for a one-character separator: the pieces between
      separators, empty ones included; there is always at least one piece. */
  function Dividir(s: string, sep: char): (partes: seq<string>)
    ensures |partes| >= 1
    ensures forall k :: 0 <= k < |partes| ==> sep !in partes[k]
  {
    if s == [] then [""]
    else
      var resto := Dividir(s[1..], sep);
      if s[0] == sep then [""] + resto
      else [[s[0]] + resto[0]] + resto[1..]
  }

  /** `sep.join(partes)` */
  function Juntar(partes: seq<string>, sep: char): string
    requires |partes| >= 1
  {
    if |partes| == 1 then partes[0] else partes[0] + [sep] + Juntar(partes[1..], sep)
  }

  /** Splitting and joining back on the same separator gives the original text. */
  lemma {:induction false} JuntarDividir(s: string, sep: char)
    ensures Juntar(Dividir(s, sep), sep) == s
  {
    if s != [] {
      JuntarDividir(s[1..], sep);
      var resto := Dividir(s[1..], sep);
      if s[0] != sep {
        if |resto| > 1 {
          assert Juntar(resto, sep) == resto[0] + [sep] + Juntar(resto[1..], sep);
        }
      }
    }
  }

  /** Joining pieces free of the separator and splitting again gives the pieces back. */
  lemma {:induction false} DividirJuntar(partes: seq<string>, sep: char)
    requires |partes| >= 1
    requires forall k :: 0 <= k < |partes| ==> sep !in partes[k]
    ensures Dividir(Juntar(partes, sep), sep) == partes
  {
    if |partes| == 1 {
      DividirSemSeparador(partes[0], sep);
    } else {
      DividirJuntar(partes[1..], sep);
      DividirPrefixo(partes[0], Juntar(partes[1..], sep), sep);
      assert Juntar(partes, sep) == partes[0] + [sep] + Juntar(partes[1..], sep);
    }
  }

  lemma {:induction false} DividirSemSeparador(s: string, sep: char)
    requires sep !in s
    ensures Dividir(s, sep) == [s]
  {
    if s != [] {
      DividirSemSeparador(s[1..], sep);
      assert [s[0]] + s[1..] == s;
    }
  }

  /** A separator-free prefix followed by a separator becomes the first piece. */
  lemma {:induction false} DividirPrefixo(p: string, t: string, sep: char)
    requires sep !in p
    ensures Dividir(p + [sep] + t, sep) == [p] + Dividir(t, sep)
  {
    if p != [] {
      assert (p + [sep] + t)[1..] == p[1..] + [sep] + t;
      DividirPrefixo(p[1..], t, sep);
      assert [p[0]] + p[1..] == p;
    } else {
      assert (p + [sep] + t)[1..] == t;
    }
  }

  /** `s.replace(de, para)` for single characters. */
  function Substituir(s: string, de: char, para: char): (r: string)
    ensures |r| == |s|
    ensures forall i :: 0 <= i < |s| ==> r[i] == (if s[i] == de then para else s[i])
  {
    if s == [] then [] else [if s[0] == de then para else s[0]] + Substituir(s[1..], de, para)
  }

  /** A non-empty text with no whitespace at either end, as `strip()` leaves it. */
  predicate Limpo(t: string) {
    t != [] && !EhEspaco(t[0]) && !EhEspaco(t[|t| - 1])
  }

  /** `[x.strip() for x in partes if x.strip()]`: the stripped, non-empty pieces in order. */
  function LimparItens(partes: seq<string>): (r: seq<string>)
    ensures |r| <= |partes|
    ensures forall t :: t in r ==> Limpo(t)
  {
    if partes == [] then []
    else
      var p := Strip(partes[0]);
      var resto := LimparItens(partes[1..]);
      if p == [] then resto else [p] + resto
  }

  /** Cleaning cannot bring in a separator that no piece had. */
  lemma {:induction false} LimparItensSemSeparador(partes: seq<string>, sep: char)
    requires forall t :: t in partes ==> sep !in t
    ensures forall t :: t in LimparItens(partes) ==> sep !in t
  {
    if partes != [] {
      assert partes[0] in partes;
      assert forall t :: t in partes[1..] ==> t in partes;
      LimparItensSemSeparador(partes[1..], sep);
      StripFatia(partes[0]);
      var p := Strip(partes[0]);
      assert sep !in p;
    }
  }

  /** Entries that are already clean survive cleaning unchanged. */
  lemma {:induction false} LimparItensLimpos(partes: seq<string>)
    requires forall t :: t in partes ==> Limpo(t)
    ensures LimparItens(partes) == partes
  {
    if partes != [] {
      assert partes[0] in partes;
      assert forall t :: t in partes[1..] ==> t in partes;
      StripSemEspacosNasPontas(partes[0]);
      LimparItensLimpos(partes[1..]);
      Recompor(partes);
    }
  }

  // ---------------------------------------------------------------------------
  // Integers as text

  /** `str(n)` for a natural number. */
  function NatParaTexto(n: nat): (r: string)
    ensures |r| >= 1 && SoDigitos(r)
    ensures r[0] == '0' ==> n == 0
  {
    if n < 10 then [CharDigito(n)] else NatParaTexto(n / 10) + [CharDigito(n % 10)]
  }

  /** `str(i)` for any integer. */
  function IntParaTexto(i: int): string {
    if i < 0 then "-" + NatParaTexto(-i) else NatParaTexto(i)
  }

  /** The number a string of decimal digits denotes. */
  function ValorDecimal(s: string): nat
    requires SoDigitos(s)
  {
    if s == [] then 0 else ValorDecimal(s[..|s| - 1]) * 10 + ValorDigito(s[|s| - 1])
  }

  lemma {:induction false} ValorNatParaTexto(n: nat)
    ensures ValorDecimal(NatParaTexto(n)) == n
  {
    if n >= 10 {
      ValorNatParaTexto(n / 10);
      var s := NatParaTexto(n);
      assert s[..|s| - 1] == NatParaTexto(n / 10);
    }
  }

  /** Distinct numbers are written differently. */
  lemma NatParaTextoInjetivo(a: nat, b: nat)
    ensures NatParaTexto(a) == NatParaTexto(b) ==> a == b
  {
    ValorNatParaTexto(a);
    ValorNatParaTexto(b);
  }

  /** Digits with single underscores between them, as Python's `int()` accepts. */
  predicate DigitosComSublinhados(s: string) {
    |s| >= 1 && EhDigito(s[0]) && EhDigito(s[|s| - 1])
    && (forall i :: 0 <= i < |s| ==> EhDigito(s[i]) || s[i] == '_')
    && forall i :: 0 <= i < |s| ==> EhDigito(s[i]) || (s[i] == '_' && i + 1 < |s| && EhDigito(s[i + 1]))
  }

  function SemSublinhados(s: string): (r: string)
    requires forall i :: 0 <= i < |s| ==> EhDigito(s[i]) || s[i] == '_'
    ensures SoDigitos(r) && |r| <= |s|
  {
    if s == [] then []
    else if s[|s| - 1] == '_' then SemSublinhados(s[..|s| - 1])
    else SemSublinhados(s[..|s| - 1]) + [s[|s| - 1]]
  }

  lemma {:induction false} SemSublinhadosDigitos(s: string)
    requires SoDigitos(s)
    ensures SemSublinhados(s) == s
  {
    if s != [] {
      SemSublinhadosDigitos(s[..|s| - 1]);
    }
  }

  /** Python's `int(text)` on an already stripped text: an optional sign, then
      ASCII digits with single underscores between them; anything else raises
      ValueError, modelled as None. */
  function LerInteiro(s: string): (r: Option<int>)
    ensures r.Some? ==> |s| >= 1 && (EhDigito(s[0]) || s[0] == '+' || s[0] == '-')
  {
    if |s| >= 1 && (s[0] == '+' || s[0] == '-') then
      var corpo := s[1..];
      if DigitosComSublinhados(corpo) then
        var v: int := ValorDecimal(SemSublinhados(corpo));
        Some(if s[0] == '-' then -v else v)
      else None
    else if DigitosComSublinhados(s) then Some(ValorDecimal(SemSublinhados(s)))
    else None
  }

  lemma LerNatParaTexto(n: nat)
    ensures DigitosComSublinhados(NatParaTexto(n))
    ensures ValorDecimal(SemSublinhados(NatParaTexto(n))) == n
  {
    SemSublinhadosDigitos(NatParaTexto(n));
    ValorNatParaTexto(n);
  }

  /** A minus sign in front of digits negates their value. */
  lemma LerInteiroNegativo(t: string)
    requires DigitosComSublinhados(t)
    ensures LerInteiro("-" + t) == Some(-(ValorDecimal(SemSublinhados(t)) as int))
  {
    var s := "-" + t;
    assert s[0] == '-' && s[1..] == t;
  }

  /** Unsigned digits read as their value. */
  lemma LerInteiroDigitos(t: string)
    requires DigitosComSublinhados(t)
    ensures LerInteiro(t) == Some(ValorDecimal(SemSublinhados(t)) as int)
  {
  }

  /** `int(str(i)) == i` */
  lemma LerInteiroIntParaTexto(i: int)
    ensures LerInteiro(IntParaTexto(i)) == Some(i)
  {
    var n: nat := if i < 0 then -i else i;
    var t := NatParaTexto(n);
    LerNatParaTexto(n);
    if i < 0 {
      assert IntParaTexto(i) == "-" + t;
      LerInteiroNegativo(t);
    } else {
      assert IntParaTexto(i) == t;
      LerInteiroDigitos(t);
    }
  }
}
