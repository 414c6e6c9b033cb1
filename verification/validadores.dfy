/** The input validators of the application: e-mail address, CPF and CNPJ
    check digits (the Brazilian mod-11 rule for taxpayer numbers), text
    sanitising, file extension and required form fields. */
module Validadores {
  import opened Texto

  // ---------------------------------------------------------------------------
  // validate_email: ^[a-zA-Z0-9._%+-]+@[a-zA-Z0-9.-]+\.[a-zA-Z]{2,}$

  /** `[a-zA-Z0-9._%+-]`, a character of the local part. */
  predicate CharLocal(c: char) {
    EhLetra(c) || EhDigito(c) || c == '.' || c == '_' || c == '%' || c == '+' || c == '-'
  }

  /** `[a-zA-Z0-9.-]`, a character of the domain. */
  predicate CharDominio(c: char) {
    EhLetra(c) || EhDigito(c) || c == '.' || c == '-'
  }

  /** All of `t` matches the address pattern with its '@' at index `i` and the
      '.' before the top-level domain at index `k`. */
  predicate CasaEmailEm(t: string, i: nat, k: nat) {
    0 < i && i + 1 < k && k + 2 < |t|
    && (forall j :: 0 <= j < i ==> CharLocal(t[j]))
    && t[i] == '@'
    && (forall j :: i < j < k ==> CharDominio(t[j]))
    && t[k] == '.'
    && (forall j :: k < j < |t| ==> EhLetra(t[j]))
  }

  /** All of `t` matches the address pattern. */
  ghost predicate CasaEmail(t: string) {
    exists i: nat, k: nat :: CasaEmailEm(t, i, k)
  }

  /** Decides the pattern without searching: the '@' can only be the first
      one and the '.' only the last one. */
  predicate ConfereEmail(t: string) {
    match PrimeiraOcorrencia(t, '@')
    case None => false
    case Some(i) =>
      match UltimaOcorrencia(t, '.')
      case None => false
      case Some(k) => CasaEmailEm(t, i, k)
  }

  lemma ConfereEmailCorreto(t: string)
    ensures ConfereEmail(t) <==> CasaEmail(t)
  {
    if CasaEmail(t) {
      var i: nat, k: nat :| CasaEmailEm(t, i, k);
      var a := PrimeiraOcorrencia(t, '@');
      assert t[i] in t;
      assert a.value == i;
      var b := UltimaOcorrencia(t, '.');
      assert t[k] in t;
      assert b.value == k;
    }
  }

  /** `validate_email(email)`: `re.match` anchors at the start, and `$` also
      matches just before a final '\n'. */
  predicate ValidarEmail(email: string) {
    ConfereEmail(email)
    || (|email| >= 1 && email[|email| - 1] == '\n' && ConfereEmail(email[..|email| - 1]))
  }

  lemma ValidarEmailCorreto(email: string)
    ensures ValidarEmail(email) <==>
              CasaEmail(email)
              || (|email| >= 1 && email[|email| - 1] == '\n' && CasaEmail(email[..|email| - 1]))
  {
    ConfereEmailCorreto(email);
    if |email| >= 1 {
      ConfereEmailCorreto(email[..|email| - 1]);
    }
  }

  /** In a matching address the only '@' is the one at `i`. */
  lemma CasaEmailArrobaUnica(t: string, i: nat, k: nat)
    requires CasaEmailEm(t, i, k)
    ensures forall j :: 0 <= j < |t| && t[j] == '@' ==> j == i
  {
  }

  /** A text the pattern decides for holds exactly one '@', not at its start. */
  lemma ConfereEmailUmArroba(t: string)
    requires ConfereEmail(t)
    ensures exists i :: 0 < i < |t| && t[i] == '@'
    ensures forall i, j :: 0 <= i < j < |t| && t[i] == '@' ==> t[j] != '@'
  {
    var i := PrimeiraOcorrencia(t, '@').value;
    var k := UltimaOcorrencia(t, '.').value;
    assert CasaEmailEm(t, i, k);
    CasaEmailArrobaUnica(t, i, k);
  }

  /** An accepted address holds exactly one '@', and it is not the first character. */
  lemma EmailValidoUmArroba(email: string)
    requires ValidarEmail(email)
    ensures exists i :: 0 < i < |email| && email[i] == '@'
    ensures forall i, j :: 0 <= i < j < |email| && email[i] == '@' ==> email[j] != '@'
  {
    if !ConfereEmail(email) {
      var t := email[..|email| - 1];
      ConfereEmailUmArroba(t);
      var i :| 0 < i < |t| && t[i] == '@';
      assert email[i] == '@';
      forall a, b | 0 <= a < b < |email| && email[a] == '@'
        ensures email[b] != '@'
      {
        if b < |t| {
          assert email[a] == t[a] && email[b] == t[b];
        }
      }
    } else {
      ConfereEmailUmArroba(email);
    }
  }

  lemma EmailExemploValido(t: string)
    requires t == "test@example.com"
    ensures ValidarEmail(t)
  {
    assert CasaEmailEm(t, 4, 12);
    ConfereEmailCorreto(t);
  }

  lemma EmailExemplosInvalidos(sem: string, inicio: string, fim: string)
    requires sem == "invalid-email" && inicio == "@example.com" && fim == "test@"
    ensures !ValidarEmail(sem) && !ValidarEmail(inicio) && !ValidarEmail(fim) && !ValidarEmail("")
  {
    assert PrimeiraOcorrencia(sem, '@').None?;
    assert PrimeiraOcorrencia(inicio, '@') == Some(0);
    assert PrimeiraOcorrencia(fim, '@') == Some(4);
  }

  // ---------------------------------------------------------------------------
  // CPF and CNPJ

  /** `re.sub(r'[^0-9]', '', s)`: the digits of `s`, in order. */
  function Digitos(s: string): (r: string)
    ensures SoDigitos(r) && |r| <= |s|
  {
    if s == [] then [] else (if EhDigito(s[0]) then [s[0]] else []) + Digitos(s[1..])
  }

  lemma {:induction false} DigitosConcat(a: string, b: string)
    ensures Digitos(a + b) == Digitos(a) + Digitos(b)
  {
    if a == [] {
      assert a + b == b;
    } else {
      assert (a + b)[1..] == a[1..] + b;
      DigitosConcat(a[1..], b);
    }
  }

  lemma {:induction false} DigitosDeDigitos(s: string)
    requires SoDigitos(s)
    ensures Digitos(s) == s
  {
    if s != [] {
      DigitosDeDigitos(s[1..]);
    }
  }

  lemma {:induction false} DigitosSemDigitos(p: string)
    requires forall i :: 0 <= i < |p| ==> !EhDigito(p[i])
    ensures Digitos(p) == []
  {
    if p != [] {
      DigitosSemDigitos(p[1..]);
    }
  }

  lemma CharDigitoValor(c: char)
    requires EhDigito(c)
    ensures CharDigito(ValorDigito(c)) == c
  {
  }

  function Soma(xs: seq<nat>): nat {
    if xs == [] then 0 else xs[0] + Soma(xs[1..])
  }

  /** `sum(int(d[i]) * pesos[i] for i in range(len(pesos)))` */
  function SomaPonderada(d: string, pesos: seq<nat>): nat
    requires |pesos| <= |d| && SoDigitos(d)
  {
    if pesos == [] then 0 else ValorDigito(d[0]) * pesos[0] + SomaPonderada(d[1..], pesos[1..])
  }

  /** The weighted sum reads only the first `|pesos|` digits. */
  lemma {:induction false} SomaPonderadaPrefixo(d: string, e: string, pesos: seq<nat>)
    requires |pesos| <= |d| && SoDigitos(d) && |pesos| <= |e| && SoDigitos(e)
    requires d[..|pesos|] == e[..|pesos|]
    ensures SomaPonderada(d, pesos) == SomaPonderada(e, pesos)
  {
    if pesos != [] {
      assert d[0] == d[..|pesos|][0] == e[..|pesos|][0] == e[0];
      assert d[1..][..|pesos| - 1] == d[..|pesos|][1..];
      assert e[1..][..|pesos| - 1] == e[..|pesos|][1..];
      SomaPonderadaPrefixo(d[1..], e[1..], pesos[1..]);
    }
  }

  /** Over a repeated digit the weighted sum is that digit times the sum of the weights. */
  lemma {:induction false} SomaPonderadaConstante(d: string, pesos: seq<nat>, x: char)
    requires |pesos| <= |d| && EhDigito(x)
    requires forall i :: 0 <= i < |d| ==> d[i] == x
    ensures SomaPonderada(d, pesos) == ValorDigito(x) * Soma(pesos)
  {
    if pesos != [] {
      SomaPonderadaConstante(d[1..], pesos[1..], x);
    }
  }

  /** `0 if soma % 11 < 2 else 11 - soma % 11`: the digit that brings the sum
      to a multiple of 11, or 0 when that would take 10 or 11. */
  function DigitoVerificador(soma: nat): (dv: nat)
    ensures dv < 10
    ensures soma % 11 >= 2 ==> (soma + dv) % 11 == 0
    ensures soma % 11 < 2 ==> dv == 0
  {
    var resto := soma % 11;
    if resto < 2 then 0 else 11 - resto
  }

  /** `cpf == cpf[0] * len(cpf)` */
  predicate TodosIguais(d: string) {
    forall i :: 0 <= i < |d| ==> d[i] == d[0]
  }

  /** Both check digits of `d`: the one at `|p1|` over weights `p1`, the one
      at `|p2|` over weights `p2`. */
  predicate DigitosConferem(d: string, p1: seq<nat>, p2: seq<nat>)
    requires SoDigitos(d) && |p1| + 2 == |d| && |p2| + 1 == |d|
  {
    ValorDigito(d[|p1|]) == DigitoVerificador(SomaPonderada(d, p1))
    && ValorDigito(d[|p2|]) == DigitoVerificador(SomaPonderada(d, p2))
  }

  /** The number the mod-11 rule completes `base` to: `base` followed by its
      two check digits. */
  function Completar(base: string, p1: seq<nat>, p2: seq<nat>): (r: string)
    requires SoDigitos(base) && |p1| == |base| && |p2| == |base| + 1
    ensures |r| == |base| + 2 && SoDigitos(r) && r[..|base|] == base
    ensures DigitosConferem(r, p1, p2)
  {
    var dv1 := CharDigito(DigitoVerificador(SomaPonderada(base, p1)));
    var b1 := base + [dv1];
    var r := b1 + [CharDigito(DigitoVerificador(SomaPonderada(b1, p2)))];
    assert r[..|base|] == base && r[..|b1|] == b1;
    SomaPonderadaPrefixo(r, base, p1);
    SomaPonderadaPrefixo(r, b1, p2);
    r
  }

  /** The check digits are right exactly when the number is the completion of
      its leading digits: each base has one and only one valid completion. */
  lemma DigitosConferemCompletar(d: string, p1: seq<nat>, p2: seq<nat>)
    requires SoDigitos(d) && |p1| + 2 == |d| && |p2| + 1 == |d|
    ensures DigitosConferem(d, p1, p2) <==> d == Completar(d[..|p1|], p1, p2)
  {
    var n := |p1|;
    var base := d[..n];
    var c := Completar(base, p1, p2);
    if DigitosConferem(d, p1, p2) {
      SomaPonderadaPrefixo(d, base, p1);
      CharDigitoValor(d[n]);
      assert c[n] == d[n];
      assert d[..n + 1] == base + [c[n]];
      SomaPonderadaPrefixo(d, base + [c[n]], p2);
      CharDigitoValor(d[n + 1]);
      assert c[n + 1] == d[n + 1];
      assert d == d[..n] + [d[n]] + [d[n + 1]];
      assert c == c[..n] + [c[n]] + [c[n + 1]];
    }
  }

  /** When the check digits of a constant base are that constant again. */
  lemma DigitoVerificadorConstante(v: nat)
    requires v < 10
    ensures DigitoVerificador(v * 54) == v
    ensures DigitoVerificador(v * 65) == v
    ensures DigitoVerificador(v * 58) == v <==> v == 0
    ensures v == 0 ==> DigitoVerificador(v * 64) == 0
  {
    if v == 0 {
    } else if v == 1 {
    } else if v == 2 {
    } else if v == 3 {
    } else if v == 4 {
    } else if v == 5 {
    } else if v == 6 {
    } else if v == 7 {
    } else if v == 8 {
    } else {
      assert v == 9;
    }
  }

  const PESOS_CPF_1: seq<nat> := [10, 9, 8, 7, 6, 5, 4, 3, 2]
  const PESOS_CPF_2: seq<nat> := [11, 10, 9, 8, 7, 6, 5, 4, 3, 2]
  const PESOS_CNPJ_1: seq<nat> := [5, 4, 3, 2, 9, 8, 7, 6, 5, 4, 3, 2]
  const PESOS_CNPJ_2: seq<nat> := [6, 5, 4, 3, 2, 9, 8, 7, 6, 5, 4, 3, 2]

  /** `validate_cpf(cpf)` */
  predicate ValidarCpf(cpf: string) {
    var d := Digitos(cpf);
    |d| == 11 && !TodosIguais(d) && DigitosConferem(d, PESOS_CPF_1, PESOS_CPF_2)
  }

  /** `validate_cnpj(cnpj)` */
  predicate ValidarCnpj(cnpj: string) {
    var d := Digitos(cnpj);
    |d| == 14 && !TodosIguais(d) && DigitosConferem(d, PESOS_CNPJ_1, PESOS_CNPJ_2)
  }

  function CompletarCpf(base: string): string
    requires |base| == 9 && SoDigitos(base)
  {
    Completar(base, PESOS_CPF_1, PESOS_CPF_2)
  }

  function CompletarCnpj(base: string): string
    requires |base| == 12 && SoDigitos(base)
  {
    Completar(base, PESOS_CNPJ_1, PESOS_CNPJ_2)
  }

  /** A CPF is valid iff its digits are 11, not all equal, and the completion
      of the first nine. */
  lemma ValidarCpfCompletar(cpf: string)
    ensures ValidarCpf(cpf) <==>
              var d := Digitos(cpf);
              |d| == 11 && !TodosIguais(d) && d == CompletarCpf(d[..9])
  {
    var d := Digitos(cpf);
    if |d| == 11 {
      DigitosConferemCompletar(d, PESOS_CPF_1, PESOS_CPF_2);
    }
  }

  /** A CNPJ is valid iff its digits are 14, not all equal, and the completion
      of the first twelve. */
  lemma ValidarCnpjCompletar(cnpj: string)
    ensures ValidarCnpj(cnpj) <==>
              var d := Digitos(cnpj);
              |d| == 14 && !TodosIguais(d) && d == CompletarCnpj(d[..12])
  {
    var d := Digitos(cnpj);
    if |d| == 14 {
      DigitosConferemCompletar(d, PESOS_CNPJ_1, PESOS_CNPJ_2);
    }
  }

  /** Right check digits after a constant base `x...x`: the first is the one for
      `x` times the sum of the first weights, and when it equals `x` the second is
      the one for `x` times the sum of the second weights. */
  lemma ConferemBaseConstante(d: string, p1: seq<nat>, p2: seq<nat>, x: char)
    requires SoDigitos(d) && |p1| + 2 == |d| && |p2| + 1 == |d| && EhDigito(x)
    requires forall i :: 0 <= i < |p1| ==> d[i] == x
    requires DigitosConferem(d, p1, p2)
    ensures ValorDigito(d[|p1|]) == DigitoVerificador(ValorDigito(x) * Soma(p1))
    ensures d[|p1|] == x ==> ValorDigito(d[|p2|]) == DigitoVerificador(ValorDigito(x) * Soma(p2))
  {
    var n := |p1|;
    SomaPonderadaPrefixo(d, d[..n], p1);
    SomaPonderadaConstante(d[..n], p1, x);
    if d[n] == x {
      SomaPonderadaPrefixo(d, d[..n + 1], p2);
      SomaPonderadaConstante(d[..n + 1], p2, x);
    }
  }

  lemma {:induction false} SomaConcat(a: seq<nat>, b: seq<nat>)
    ensures Soma(a + b) == Soma(a) + Soma(b)
  {
    if a != [] {
      assert (a + b)[1..] == a[1..] + b;
      SomaConcat(a[1..], b);
    } else {
      assert a + b == b;
    }
  }

  lemma SomaPesosCpf1(p: seq<nat>)
    requires p == PESOS_CPF_1
    ensures Soma(p) == 54
  {
    var a, b := [10, 9, 8, 7], [6, 5, 4, 3, 2];
    assert a + b == p;
    SomaConcat(a, b);
  }

  lemma SomaPesosCpf2(p: seq<nat>)
    requires p == PESOS_CPF_2
    ensures Soma(p) == 65
  {
    assert p[1..] == PESOS_CPF_1;
    SomaPesosCpf1(p[1..]);
  }

  lemma SomaPesosCnpj1(p: seq<nat>)
    requires p == PESOS_CNPJ_1
    ensures Soma(p) == 58
  {
    var a, b, c := [5, 4, 3, 2], [9, 8, 7, 6], [5, 4, 3, 2];
    assert a + b + c == p;
    SomaConcat(a, b);
    SomaConcat(a + b, c);
  }

  lemma SomaPesosCnpj2(p: seq<nat>)
    requires p == PESOS_CNPJ_2
    ensures Soma(p) == 64
  {
    assert p[1..] == PESOS_CNPJ_1;
    SomaPesosCnpj1(p[1..]);
  }

  /** The completion of a constant CPF base is constant again. */
  lemma CompletarCpfConstante(base: string)
    requires |base| == 9 && SoDigitos(base) && TodosIguais(base)
    ensures TodosIguais(CompletarCpf(base))
  {
    var c := CompletarCpf(base);
    var x := base[0];
    var v := ValorDigito(x);
    assert ValorDigito(c[9]) == DigitoVerificador(v * 54)
           && (c[9] == x ==> ValorDigito(c[10]) == DigitoVerificador(v * 65)) by {
      assert forall i :: 0 <= i < 9 ==> c[i] == c[..9][i];
      ConferemBaseConstante(c, PESOS_CPF_1, PESOS_CPF_2, x);
      SomaPesosCpf1(PESOS_CPF_1);
      SomaPesosCpf2(PESOS_CPF_2);
    }
    DigitoVerificadorConstante(v);
    CharDigitoValor(x);
    CharDigitoValor(c[9]);
    assert c[9] == x;
    CharDigitoValor(c[10]);
    assert c[10] == x;
    forall i | 0 <= i < |c|
      ensures c[i] == c[0]
    {
      if i < 9 {
        assert c[i] == c[..9][i] == base[i];
      }
    }
  }

  /** Every nine-digit base completes to a valid CPF, except the ten constant
      bases, whose completion is again constant. */
  lemma CompletarCpfValido(base: string)
    requires |base| == 9 && SoDigitos(base)
    ensures ValidarCpf(CompletarCpf(base)) <==> !TodosIguais(base)
  {
    var c := CompletarCpf(base);
    DigitosDeDigitos(c);
    ValidarCpfCompletar(c);
    assert c[..9] == base;
    if TodosIguais(base) {
      CompletarCpfConstante(base);
    } else {
      var i :| 0 <= i < |base| && base[i] != base[0];
      assert c[i] == base[i] && c[0] == base[0];
    }
  }

  /** The check digits of a constant CNPJ base `x...x`, from the weight sums 58 and 64. */
  lemma CompletarCnpjConstanteDigitos(base: string)
    requires |base| == 12 && SoDigitos(base) && TodosIguais(base)
    ensures var c := CompletarCnpj(base);
            var v := ValorDigito(base[0]);
            c[0] == base[0]
            && ValorDigito(c[12]) == DigitoVerificador(v * 58)
            && (c[12] == base[0] ==> ValorDigito(c[13]) == DigitoVerificador(v * 64))
  {
    var c := CompletarCnpj(base);
    assert c[0] == c[..12][0];
    assert forall i :: 0 <= i < 12 ==> c[i] == c[..12][i];
    ConferemBaseConstante(c, PESOS_CNPJ_1, PESOS_CNPJ_2, base[0]);
    SomaPesosCnpj1(PESOS_CNPJ_1);
    SomaPesosCnpj2(PESOS_CNPJ_2);
  }

  /** The zero base completes to the constant "00000000000000". */
  lemma CompletarCnpjZero(base: string)
    requires |base| == 12 && SoDigitos(base) && TodosIguais(base) && base[0] == '0'
    ensures TodosIguais(CompletarCnpj(base))
  {
    var c := CompletarCnpj(base);
    CompletarCnpjConstanteDigitos(base);
    DigitoVerificadorConstante(0);
    CharDigitoValor(c[12]);
    assert c[12] == '0';
    CharDigitoValor(c[13]);
    assert c[13] == '0';
    forall i | 0 <= i < |c|
      ensures c[i] == c[0]
    {
      if i < 12 {
        assert c[i] == c[..12][i] == base[i];
      }
    }
  }

  /** The completion of a constant CNPJ base is constant only for the zero base. */
  lemma CompletarCnpjConstante(base: string)
    requires |base| == 12 && SoDigitos(base) && TodosIguais(base)
    ensures TodosIguais(CompletarCnpj(base)) <==> base[0] == '0'
  {
    if base[0] == '0' {
      CompletarCnpjZero(base);
    } else {
      var c := CompletarCnpj(base);
      var v := ValorDigito(base[0]);
      CompletarCnpjConstanteDigitos(base);
      DigitoVerificadorConstante(v);
      CharDigitoValor(base[0]);
      assert c[12] != c[0];
    }
  }

  /** Every twelve-digit base completes to a valid CNPJ except "000000000000":
      for any other constant base the first check digit differs from the base
      digit. */
  lemma CompletarCnpjValido(base: string)
    requires |base| == 12 && SoDigitos(base)
    ensures ValidarCnpj(CompletarCnpj(base)) <==> !(TodosIguais(base) && base[0] == '0')
  {
    var c := CompletarCnpj(base);
    DigitosDeDigitos(c);
    ValidarCnpjCompletar(c);
    assert c[..12] == base;
    if TodosIguais(base) {
      CompletarCnpjConstante(base);
    } else {
      var i :| 0 <= i < |base| && base[i] != base[0];
      assert c[i] == base[i] && c[0] == base[0];
    }
  }

  /** Inserting or removing punctuation (anything but a digit) does not
      change either verdict. */
  lemma ValidarIgnoraPontuacao(a: string, p: string, b: string)
    requires forall i :: 0 <= i < |p| ==> !EhDigito(p[i])
    ensures ValidarCpf(a + p + b) == ValidarCpf(a + b)
    ensures ValidarCnpj(a + p + b) == ValidarCnpj(a + b)
  {
    DigitosConcat(a + p, b);
    DigitosConcat(a, p);
    DigitosSemDigitos(p);
    DigitosConcat(a, b);
    assert Digitos(a + p + b) == Digitos(a + b);
  }

  lemma SomaCpfValido1()
    ensures SomaPonderada("11144477735", PESOS_CPF_1) == 162
  {
  }

  lemma SomaCpfValido2()
    ensures SomaPonderada("11144477735", PESOS_CPF_2) == 204
  {
  }

  lemma SomaCpfErrado()
    ensures SomaPonderada("12345678901", PESOS_CPF_2) == 255
  {
  }

  /** A digit string passes the mod-11 rule once its two weighted sums are known. */
  lemma DigitosConferemPorSomas(d: string, p1: seq<nat>, p2: seq<nat>, s1: int, s2: int)
    requires SoDigitos(d) && |p1| + 2 == |d| && |p2| + 1 == |d|
    requires SomaPonderada(d, p1) == s1 && SomaPonderada(d, p2) == s2
    requires ValorDigito(d[|p1|]) == DigitoVerificador(s1) && ValorDigito(d[|p2|]) == DigitoVerificador(s2)
    ensures DigitosConferem(d, p1, p2)
  {
  }

  /** The digit facts the CPF examples rely on. */
  lemma CpfValidoDigitos(valido: string)
    requires valido == "11144477735"
    ensures SoDigitos(valido) && |valido| == 11 && Digitos(valido) == valido
    ensures ValorDigito(valido[9]) == 3 && ValorDigito(valido[10]) == 5 && valido[0] != valido[3]
  {
    DigitosDeDigitos(valido);
  }

  /** '11144477735' is a valid CPF. */
  lemma CpfExemploValido(valido: string)
    requires valido == "11144477735"
    ensures ValidarCpf(valido)
  {
    CpfValidoDigitos(valido);
    SomaCpfValido1();
    SomaCpfValido2();
    assert DigitoVerificador(162) == 3 && DigitoVerificador(204) == 5;
    DigitosConferemPorSomas(valido, PESOS_CPF_1, PESOS_CPF_2, 162, 204);
  }

  lemma CpfErradoDigitos(errado: string)
    requires errado == "12345678901"
    ensures SoDigitos(errado) && |errado| == 11 && Digitos(errado) == errado
    ensures ValorDigito(errado[10]) == 1
  {
    DigitosDeDigitos(errado);
  }

  /** '12345678901' fails on its second check digit. */
  lemma CpfExemploErrado(errado: string)
    requires errado == "12345678901"
    ensures !ValidarCpf(errado)
  {
    CpfErradoDigitos(errado);
    SomaCpfErrado();
    assert DigitoVerificador(255) == 9;
  }

  /** Fewer digits than a CPF or a CNPJ needs, or a single repeated digit, is refused. */
  lemma ValidarRecusaCurtoOuConstante(s: string)
    requires |Digitos(s)| < 11 || TodosIguais(Digitos(s))
    ensures !ValidarCpf(s) && !ValidarCnpj(s)
  {
  }

  // ---------------------------------------------------------------------------
  // sanitize_input

  /** At index `p`, `<[^>]+>` does not match: `s[p]` is not '<', or the next
      character is '>', or no '>' follows at all. */
  predicate SemTagEm(s: string, p: nat)
    requires p < |s|
  {
    s[p] != '<' || (p + 1 < |s| && s[p + 1] == '>') || '>' !in s[p + 1..]
  }

  /** `<[^>]+>` matches nowhere in `s`. */
  predicate SemTag(s: string) {
    s == [] || (SemTagEm(s, 0) && SemTag(s[1..]))
  }

  lemma {:induction false} SemTagPontual(s: string)
    ensures SemTag(s) <==> forall p :: 0 <= p < |s| ==> SemTagEm(s, p)
  {
    if s != [] {
      SemTagPontual(s[1..]);
      forall p | 0 <= p < |s| - 1
        ensures SemTagEm(s[1..], p) <==> SemTagEm(s, p + 1)
      {
        assert s[1..][p + 1..] == s[p + 2..];
      }
      if SemTag(s) {
        forall p | 0 <= p < |s|
          ensures SemTagEm(s, p)
        {
          if p > 0 {
            assert SemTagEm(s[1..], p - 1);
          }
        }
      } else if SemTagEm(s, 0) {
        var p :| 0 <= p < |s| - 1 && !SemTagEm(s[1..], p);
        assert !SemTagEm(s, p + 1);
      }
    }
  }

  /** Where `SemTagEm` fails, the pattern matches from `p` to the next '>'. */
  lemma CasamentoEm(s: string, p: nat)
    requires p < |s| && !SemTagEm(s, p)
    ensures exists q :: p + 1 < q < |s| && s[p] == '<' && s[q] == '>' && '>' !in s[p + 1..q]
  {
    var k := PrimeiraOcorrencia(s[p + 1..], '>').value;
    var q := p + 1 + k;
    assert s[q] == '>';
    assert s[p + 1..q] == s[p + 1..][..k];
  }

  /** Where `SemTagEm` holds, a '<' and a later '>' have another '>' between them. */
  lemma SemCasamentoEm(s: string, p: nat, q: nat)
    requires p + 1 < q < |s| && SemTagEm(s, p) && s[p] == '<' && s[q] == '>'
    ensures '>' in s[p + 1..q]
  {
    assert s[p + 1..][q - p - 1] == '>';
    assert s[p + 1..q][0] == s[p + 1];
  }

  /** `SemTag` is the absence of a match of `<[^>]+>`: no '<' and later '>'
      with at least one character between them, none of them a '>'. */
  lemma SemTagSemCasamento(s: string)
    ensures SemTag(s) <==>
              forall p, q :: 0 <= p && p + 1 < q < |s| && s[p] == '<' && s[q] == '>' ==> '>' in s[p + 1..q]
  {
    SemTagPontual(s);
    if !SemTag(s) {
      var p :| 0 <= p < |s| && !SemTagEm(s, p);
      CasamentoEm(s, p);
    } else {
      forall p, q | 0 <= p && p + 1 < q < |s| && s[p] == '<' && s[q] == '>'
        ensures '>' in s[p + 1..q]
      {
        SemCasamentoEm(s, p, q);
      }
    }
  }

  /** `re.sub(r'<[^>]+>', '', s)`. At a '<' the pattern runs to the first '>'
      after it and matches when at least one character lies between them;
      otherwise the '<' is kept and the scan moves on. */
  function RemoverTags(s: string): (r: string)
    ensures |r| <= |s|
    decreases |s|
  {
    if s == [] then []
    else
      var fecha := PrimeiraOcorrencia(s[1..], '>');
      if s[0] == '<' && fecha.Some? && fecha.value >= 1 then RemoverTags(s[fecha.value + 2..])
      else [s[0]] + RemoverTags(s[1..])
  }

  /** A character other than '<' is kept and the scan moves on. */
  lemma RemoverTagsPasso(s: string)
    requires s != [] && s[0] != '<'
    ensures RemoverTags(s) == [s[0]] + RemoverTags(s[1..])
  {
  }

  /** A text without '<' goes through unchanged. */
  lemma {:induction false} RemoverTagsSemMenor(s: string)
    requires '<' !in s
    ensures RemoverTags(s) == s
  {
    if s != [] {
      RemoverTagsPasso(s);
      RemoverTagsSemMenor(s[1..]);
    }
  }

  /** Kept '<': the text it starts has no '>' at all, or a '>' right after it. */
  lemma SemTagMenorMantido(resto: string, r': string)
    requires multiset(r') <= multiset(resto)
    requires PrimeiraOcorrencia(resto, '>').None? || PrimeiraOcorrencia(resto, '>') == Some(0)
    requires resto != [] && resto[0] == '>' ==> r' != [] && r'[0] == '>'
    ensures SemTagEm(['<'] + r', 0)
  {
    var r := ['<'] + r';
    assert r[1..] == r';
    if PrimeiraOcorrencia(resto, '>').None? {
      assert '>' !in multiset(resto);
      assert '>' !in r';
    }
  }

  /** Removing a tag keeps what the rest of the text gives. */
  lemma LimpaAposTag(s: string, k: nat, r: string)
    requires k <= |s|
    requires SemTag(r) && multiset(r) <= multiset(s[k..])
    ensures SemTag(r) && multiset(r) <= multiset(s)
  {
    MultisetSufixo(s, k);
  }

  /** Keeping the first character keeps the result clean. */
  lemma LimpaMantendo(s: string, r': string)
    requires s != [] && SemTag(r') && multiset(r') <= multiset(s[1..])
    requires s[0] == '<' ==> SemTagEm([s[0]] + r', 0)
    ensures SemTag([s[0]] + r') && multiset([s[0]] + r') <= multiset(s)
  {
    var r := [s[0]] + r';
    assert r[1..] == r';
    assert s == [s[0]] + s[1..];
    MultisetMesmaCabeca(s[0], r', s[1..]);
  }

  /** One kept character: the result stays clean when the rest of it is. */
  lemma LimpaCaracterMantido(s: string)
    requires s != []
    requires var f := PrimeiraOcorrencia(s[1..], '>'); !(s[0] == '<' && f.Some? && f.value >= 1)
    requires SemTag(RemoverTags(s[1..])) && multiset(RemoverTags(s[1..])) <= multiset(s[1..])
    ensures SemTag(RemoverTags(s)) && multiset(RemoverTags(s)) <= multiset(s)
  {
    var resto := s[1..];
    var r' := RemoverTags(resto);
    assert RemoverTags(s) == [s[0]] + r';
    if s[0] == '<' {
      if PrimeiraOcorrencia(resto, '>').Some? {
        RemoverTagsPasso(resto);
      }
      SemTagMenorMantido(resto, r');
    }
    LimpaMantendo(s, r');
  }

  /** The result holds no tag, and only characters taken from the input. */
  lemma {:induction false} RemoverTagsLimpa(s: string)
    ensures SemTag(RemoverTags(s)) && multiset(RemoverTags(s)) <= multiset(s)
    decreases |s|
  {
    if s != [] {
      var fecha := PrimeiraOcorrencia(s[1..], '>');
      if s[0] == '<' && fecha.Some? && fecha.value >= 1 {
        var k := fecha.value + 2;
        assert RemoverTags(s) == RemoverTags(s[k..]);
        RemoverTagsLimpa(s[k..]);
        LimpaAposTag(s, k, RemoverTags(s[k..]));
      } else {
        RemoverTagsLimpa(s[1..]);
        LimpaCaracterMantido(s);
      }
    }
  }

  /** The first `c` of `t + [c] + b`, when `t` has none, is the one after `t`. */
  lemma PrimeiraOcorrenciaApos(t: string, c: char, b: string)
    requires c !in t
    ensures PrimeiraOcorrencia(t + [c] + b, c) == Some(|t|)
  {
    var s := t + [c] + b;
    assert s[|t|] == c;
  }

  /** `<t>`, a text `<[^>]+>` matches when `t` is not empty and holds no '>'. */
  function Tag(t: string): (r: string)
    ensures |r| == |t| + 2 && r[0] == '<' && r[|r| - 1] == '>'
  {
    ['<'] + t + ['>']
  }

  /** A tag at the start is removed whole. */
  lemma RemoverTagsTagInicial(t: string, b: string)
    requires t != [] && '>' !in t
    ensures RemoverTags(Tag(t) + b) == RemoverTags(b)
  {
    var s := Tag(t) + b;
    assert s[0] == '<' && s[1..] == t + ['>'] + b;
    PrimeiraOcorrenciaApos(t, '>', b);
    assert s[|t| + 2..] == b;
  }

  /** A prefix without '<' is kept as it is. */
  lemma {:induction false} RemoverTagsPrefixo(a: string, x: string)
    requires '<' !in a
    ensures RemoverTags(a + x) == a + RemoverTags(x)
  {
    if a == [] {
      assert a + x == x;
    } else {
      var s := a + x;
      assert s[1..] == a[1..] + x;
      assert s[0] == a[0];
      RemoverTagsPasso(s);
      RemoverTagsPrefixo(a[1..], x);
      calc {
        RemoverTags(a + x);
        [a[0]] + (a[1..] + RemoverTags(x));
        ([a[0]] + a[1..]) + RemoverTags(x);
        { assert [a[0]] + a[1..] == a; }
        a + RemoverTags(x);
      }
    }
  }

  /** A tag is removed whole, and the text before it is kept. */
  lemma RemoverTagsTag(a: string, t: string, b: string)
    requires '<' !in a && t != [] && '>' !in t
    ensures RemoverTags(a + Tag(t) + b) == a + RemoverTags(b)
  {
    Reagrupar(a, Tag(t), b);
    RemoverTagsPrefixo(a, Tag(t) + b);
    RemoverTagsTagInicial(t, b);
  }

  /** `[\x00-\x1f\x7f-\x9f]` */
  predicate EhControle(c: char) {
    c <= '\U{1f}' || ('\U{7f}' <= c <= '\U{9f}')
  }

  /** `re.sub(r'[\x00-\x1f\x7f-\x9f]', '', s)` */
  function RemoverControle(s: string): (r: string)
    ensures forall i :: 0 <= i < |r| ==> !EhControle(r[i])
    ensures |r| <= |s| && multiset(r) <= multiset(s)
  {
    if s == [] then []
    else
      var r' := RemoverControle(s[1..]);
      MultisetCabeca(s);
      if EhControle(s[0]) then r'
      else
        MultisetMesmaCabeca(s[0], r', s[1..]);
        [s[0]] + r'
  }

  lemma {:induction false} RemoverControleSemControle(s: string)
    requires forall i :: 0 <= i < |s| ==> !EhControle(s[i])
    ensures RemoverControle(s) == s
  {
    if s != [] {
      RemoverControleSemControle(s[1..]);
    }
  }

  lemma {:induction false} RemoverControleConcat(a: string, b: string)
    ensures RemoverControle(a + b) == RemoverControle(a) + RemoverControle(b)
  {
    if a == [] {
      assert a + b == b;
    } else {
      assert (a + b)[1..] == a[1..] + b;
      RemoverControleConcat(a[1..], b);
    }
  }

  /** A kept first character does not start a tag in the cleaned text. */
  lemma SemTagControlePasso(s: string, r': string)
    requires s != [] && SemTagEm(s, 0) && !EhControle(s[0])
    requires r' == RemoverControle(s[1..])
    ensures SemTagEm([s[0]] + r', 0)
  {
    var r := [s[0]] + r';
    assert r[1..] == r';
    if s[0] == '<' {
      if 1 < |s| && s[1] == '>' {
        assert s[1..][0] == '>';
        assert r'[0] == '>';
      } else {
        assert '>' !in multiset(s[1..]);
      }
    }
  }

  /** Dropping control characters cannot create a tag. */
  lemma {:induction false} SemTagRemoverControle(s: string)
    requires SemTag(s)
    ensures SemTag(RemoverControle(s))
  {
    if s != [] {
      SemTagRemoverControle(s[1..]);
      var r' := RemoverControle(s[1..]);
      if !EhControle(s[0]) {
        var r := [s[0]] + r';
        assert RemoverControle(s) == r;
        SemTagControlePasso(s, r');
        assert r[1..] == r';
      } else {
        assert RemoverControle(s) == [] + r';
        assert [] + r' == r';
      }
    }
  }

  /** What follows a text without tags has none. */
  lemma {:induction false} SemTagSufixo(s: string, a: nat)
    requires SemTag(s) && a <= |s|
    ensures SemTag(s[a..])
    decreases a
  {
    if a > 0 {
      SemTagSufixo(s[1..], a - 1);
      assert s[1..][a - 1..] == s[a..];
    }
  }

  /** What precedes a point of a text without tags has none. */
  lemma {:induction false} SemTagPrefixo(s: string, b: nat)
    requires SemTag(s) && b <= |s|
    ensures SemTag(s[..b])
  {
    if b > 0 {
      var t := s[..b];
      SemTagPrefixo(s[1..], b - 1);
      assert t[1..] == s[1..][..b - 1];
      assert SemTagEm(t, 0) by {
        if t[0] == '<' && !(1 < |t| && t[1] == '>') && b > 1 {
          assert '>' !in s[1..];
          assert t[1..] == s[1..b];
        }
      }
    }
  }

  /** `sanitize_input(text)`: None and "" come back as they are. */
  function Sanitizar(texto: Option<string>): (r: Option<string>)
    ensures texto.None? ==> r.None?
    ensures texto.Some? ==> r.Some? && |r.value| <= |texto.value|
  {
    match texto
    case None => None
    case Some(s) =>
      if s == [] then Some(s)
      else
        var semTags := RemoverTags(s);
        var limpo := RemoverControle(semTags);
        Some(Strip(limpo))
  }

  /** A slice of a text without tags has none. */
  lemma SemTagFatia(c: string, a: nat, b: nat)
    requires SemTag(c) && a <= b <= |c|
    ensures SemTag(c[a..b])
  {
    SemTagSufixo(c, a);
    SemTagPrefixo(c[a..], b - a);
    assert c[a..][..b - a] == c[a..b];
  }

  /** Trimming keeps a text free of tags. */
  lemma StripSemTag(c: string)
    requires SemTag(c)
    ensures SemTag(Strip(c))
  {
    var a := |c| - |TirarEspacosInicio(c)|;
    StripFatia(c);
    SemTagFatia(c, a, a + |Strip(c)|);
  }

  /** Trimming keeps a text free of control characters. */
  lemma StripSemControle(c: string)
    requires forall i :: 0 <= i < |c| ==> !EhControle(c[i])
    ensures forall i :: 0 <= i < |Strip(c)| ==> !EhControle(Strip(c)[i])
  {
    var a := |c| - |TirarEspacosInicio(c)|;
    var r := Strip(c);
    StripFatia(c);
    forall i | 0 <= i < |r|
      ensures !EhControle(r[i])
    {
      assert r[i] == c[a + i];
    }
  }

  /** No tag, no control character and no whitespace at either end. */
  predicate Seguro(r: string) {
    SemTag(r) && (forall i :: 0 <= i < |r| ==> !EhControle(r[i]))
    && (r == [] || (!EhEspaco(r[0]) && !EhEspaco(r[|r| - 1])))
  }

  /** Trimming a text without tags or control characters leaves it safe. */
  lemma StripSeguro(c: string)
    requires SemTag(c) && forall i :: 0 <= i < |c| ==> !EhControle(c[i])
    ensures Seguro(Strip(c))
  {
    StripSemTag(c);
    StripSemControle(c);
  }

  /** The sanitised text holds no tag, no control character and no surrounding
      whitespace. */
  lemma SanitizarSeguro(texto: string)
    ensures Seguro(Sanitizar(Some(texto)).value)
  {
    if texto != [] {
      var semTags := RemoverTags(texto);
      var c := RemoverControle(semTags);
      assert Sanitizar(Some(texto)).value == Strip(c);
      RemoverTagsLimpa(texto);
      SemTagRemoverControle(semTags);
      StripSeguro(c);
    }
  }

  /** A clean text is returned unchanged. */
  lemma SanitizarTextoLimpo(s: string)
    requires '<' !in s && forall i :: 0 <= i < |s| ==> !EhControle(s[i])
    requires s == [] || (!EhEspaco(s[0]) && !EhEspaco(s[|s| - 1]))
    ensures Sanitizar(Some(s)) == Some(s)
  {
    if s != [] {
      RemoverTagsSemMenor(s);
      RemoverControleSemControle(s);
      StripSemEspacosNasPontas(s);
    }
  }

  /** Control characters after a clean text are all dropped. */
  lemma RemoverControleAnexo(a: string, c: string)
    requires forall i :: 0 <= i < |a| ==> !EhControle(a[i])
    requires forall i :: 0 <= i < |c| ==> EhControle(c[i])
    ensures RemoverControle(a + c) == a
  {
    RemoverControleSemControle(a);
    RemoverControleConcat(a, c);
    assert RemoverControle(c) == [] by {
      assert forall i :: 0 <= i < |c| ==> c[i] !in RemoverControle(c);
    }
    assert a + [] == a;
  }

  /** A cleaned text without blanks at its ends comes out of the trim as it is. */
  lemma SanitizarPalavra(s: string, palavra: string)
    requires s != [] && RemoverControle(RemoverTags(s)) == palavra
    requires palavra == [] || (!EhEspaco(palavra[0]) && !EhEspaco(palavra[|palavra| - 1]))
    ensures Sanitizar(Some(s)) == Some(palavra)
  {
    StripSemEspacosNasPontas(palavra);
  }

  /** A word in the sense of the examples below: no '<', no control character and
      no blank at either end. */
  predicate Palavra(p: string)
  {
    '<' !in p && (forall i :: 0 <= i < |p| ==> !EhControle(p[i]))
    && (p == [] || (!EhEspaco(p[0]) && !EhEspaco(p[|p| - 1])))
  }

  /** Tag removal strips an opening and a closing tag around a text without '<'. */
  lemma RemoverTagsEntreTags(palavra: string, abre: string, fecha: string)
    requires '<' !in palavra
    requires abre != [] && '>' !in abre && fecha != [] && '>' !in fecha
    ensures RemoverTags(Tag(abre) + palavra + Tag(fecha)) == palavra
  {
    Reagrupar(Tag(abre), palavra, Tag(fecha));
    RemoverTagsTagInicial(abre, palavra + Tag(fecha));
    RemoverTagsTag(palavra, fecha, []);
    assert palavra + Tag(fecha) + [] == palavra + Tag(fecha);
  }

  /** A word wrapped in an opening and a closing tag, as in '<b>texto</b>',
      comes out bare. */
  lemma SanitizarEntreTags(palavra: string, abre: string, fecha: string)
    requires Palavra(palavra)
    requires abre != [] && '>' !in abre && fecha != [] && '>' !in fecha
    ensures Sanitizar(Some(Tag(abre) + palavra + Tag(fecha))) == Some(palavra)
  {
    RemoverTagsEntreTags(palavra, abre, fecha);
    RemoverControleSemControle(palavra);
    SanitizarPalavra(Tag(abre) + palavra + Tag(fecha), palavra);
  }

  /** Control characters after a word, as in 'texto\x00\x1f', are dropped;
      None and '' come back unchanged. */
  lemma SanitizarControleFinal(palavra: string, controle: string)
    requires Palavra(palavra)
    requires forall i :: 0 <= i < |controle| ==> EhControle(controle[i])
    ensures Sanitizar(Some(palavra + controle)) == if palavra + controle == [] then Some([]) else Some(palavra)
    ensures Sanitizar(Some("")) == Some("") && Sanitizar(None) == None
  {
    if palavra + controle != [] {
      assert forall i :: 0 <= i < |controle| ==> controle[i] != '<';
      assert '<' !in palavra + controle;
      RemoverTagsSemMenor(palavra + controle);
      RemoverControleAnexo(palavra, controle);
      SanitizarPalavra(palavra + controle, palavra);
    }
  }

  // ---------------------------------------------------------------------------
  // validate_file_extension

  /** `validate_file_extension(nome, permitidas)`: the text after the last '.',
      in lower case, must be one of the allowed extensions. */
  function ValidarExtensao(nome: string, permitidas: set<string>): (r: bool)
    ensures r ==> '.' in nome
    ensures r ==> exists k :: 0 <= k < |nome| && nome[k] == '.' && Minusculas(nome[k + 1..]) in permitidas
  {
    if nome == [] then false
    else match UltimaOcorrencia(nome, '.')
      case None => false
      case Some(k) => Minusculas(nome[k + 1..]) in permitidas
  }

  /** The '.' at `k` is the last one and an allowed extension follows it. */
  predicate ExtensaoEm(nome: string, k: nat, permitidas: set<string>) {
    k < |nome| && nome[k] == '.' && '.' !in nome[k + 1..] && Minusculas(nome[k + 1..]) in permitidas
  }

  lemma ExtensaoAceitaTemPonto(nome: string, permitidas: set<string>)
    requires ValidarExtensao(nome, permitidas)
    ensures exists k: nat :: ExtensaoEm(nome, k, permitidas)
  {
    var k := UltimaOcorrencia(nome, '.').value;
    assert ExtensaoEm(nome, k, permitidas);
  }

  lemma ExtensaoPontoAceita(nome: string, k: nat, permitidas: set<string>)
    requires ExtensaoEm(nome, k, permitidas)
    ensures ValidarExtensao(nome, permitidas)
  {
    UltimaOcorrenciaUnica(nome, '.', k);
  }

  /** The extension is exactly what follows the one '.' that has no other '.' after it. */
  lemma ValidarExtensaoCorreta(nome: string, permitidas: set<string>)
    ensures ValidarExtensao(nome, permitidas) <==> exists k: nat :: ExtensaoEm(nome, k, permitidas)
  {
    if ValidarExtensao(nome, permitidas) {
      ExtensaoAceitaTemPonto(nome, permitidas);
    }
    if k: nat :| ExtensaoEm(nome, k, permitidas) {
      ExtensaoPontoAceita(nome, k, permitidas);
    }
  }

  /** A name whose last '.' is followed by an allowed extension, in any case, is accepted;
      one without a '.' is refused, and only the part after the last '.' counts. */
  lemma ValidarExtensaoPonto(base: string, ext: string, permitidas: set<string>)
    requires '.' !in ext
    ensures ValidarExtensao(base + ['.'] + ext, permitidas) <==> Minusculas(ext) in permitidas
  {
    var nome := base + ['.'] + ext;
    assert nome[|base|] == '.' && nome[|base| + 1..] == ext;
    UltimaOcorrenciaUnica(nome, '.', |base|);
  }

  lemma ValidarExtensaoSemPonto(nome: string, permitidas: set<string>)
    requires '.' !in nome
    ensures !ValidarExtensao(nome, permitidas)
  {
  }

  // ---------------------------------------------------------------------------
  // validate_required_fields

  /** A form value, with Python's truthiness. */
  datatype ValorCampo = ValorNulo | ValorTexto(s: string) | ValorInteiro(i: int)
                      | ValorLogico(b: bool) | ValorLista(tamanho: nat)

  predicate Preenchido(v: ValorCampo) {
    match v
    case ValorNulo => false
    case ValorTexto(s) => s != []
    case ValorInteiro(i) => i != 0
    case ValorLogico(b) => b
    case ValorLista(n) => n > 0
  }

  /** The required fields, in order, that are absent from `dados` or falsy in it. */
  function CamposFaltando(dados: map<string, ValorCampo>, campos: seq<string>): (r: seq<string>)
    ensures |r| <= |campos|
    ensures forall c :: c in r <==> c in campos && (c !in dados || !Preenchido(dados[c]))
  {
    if campos == [] then []
    else
      var antes := CamposFaltando(dados, campos[..|campos| - 1]);
      var c := campos[|campos| - 1];
      assert campos == campos[..|campos| - 1] + [c];
      if c !in dados || !Preenchido(dados[c]) then antes + [c] else antes
  }

  /** Order is kept: the missing fields of `a + b` are those of `a`, then those of `b`. */
  lemma {:induction false} CamposFaltandoConcat(dados: map<string, ValorCampo>, a: seq<string>, b: seq<string>)
    ensures CamposFaltando(dados, a + b) == CamposFaltando(dados, a) + CamposFaltando(dados, b)
  {
    if b == [] {
      assert a + b == a;
    } else {
      assert (a + b)[..|a + b| - 1] == a + b[..|b| - 1];
      CamposFaltandoConcat(dados, a, b[..|b| - 1]);
    }
  }

  /** `validate_required_fields(dados, campos)` */
  method ValidarCamposObrigatorios(dados: map<string, ValorCampo>, campos: seq<string>)
    returns (faltando: seq<string>)
    ensures faltando == CamposFaltando(dados, campos)
  {
    faltando := [];
    var i := 0;
    while i < |campos|
      invariant 0 <= i <= |campos|
      invariant faltando == CamposFaltando(dados, campos[..i])
    {
      var campo := campos[i];
      if campo !in dados || !Preenchido(dados[campo]) {
        faltando := faltando + [campo];
      }
      i := i + 1;
      assert campos[..i][..i - 1] == campos[..i - 1];
    }
    assert campos[..|campos|] == campos;
  }
}
