/** People and farms as the notification code sees them, the CPF/CNPJ display
    formatter and the relation counters of a person. */
module Pessoas {
  import opened Texto

  datatype Fazenda = Fazenda(id: int, nome: string)

  /** A person record. The documents of a person live with the documents
      (see module Documentos); here only what the notification code reads. */
  datatype Pessoa = Pessoa(
    id: int,
    nome: string,
    cpfCnpj: string,
    email: Option<string>,
    whatsapp: Option<string>,
    notificarEmail: bool,
    notificarWhatsapp: bool,
    fazendas: seq<Fazenda>,
    endividamentos: seq<int>)

  /** Python truthiness of an optional text column: set and not empty. */
  predicate Preenchido(v: Option<string>) {
    v.Some? && v.value != []
  }

  /** `total_fazendas`, `total_documentos`, `total_endividamentos`:
      `len(rel) if rel else 0`. */
  function Total<T>(relacao: seq<T>): (n: nat)
    ensures n == 0 <==> relacao == []
    ensures n == |relacao|
  {
    if relacao != [] then |relacao| else 0
  }

  // ---------------------------------------------------------------------------
  // formatar_cpf_cnpj

  predicate EhPontuacao(c: char) {
    c == '.' || c == '-' || c == '/'
  }

  predicate SemPontuacao(s: string) {
    forall i :: 0 <= i < |s| ==> !EhPontuacao(s[i])
  }

  /** `s.replace('.', '').replace('-', '').replace('/', '')` */
  function RemoverPontuacao(s: string): (r: string)
    ensures SemPontuacao(r) && |r| <= |s|
  {
    if s == [] then []
    else (if EhPontuacao(s[0]) then [] else [s[0]]) + RemoverPontuacao(s[1..])
  }

  lemma {:induction false} RemoverPontuacaoConcat(a: string, b: string)
    ensures RemoverPontuacao(a + b) == RemoverPontuacao(a) + RemoverPontuacao(b)
  {
    if a == [] {
      assert a + b == b;
    } else {
      assert (a + b)[1..] == a[1..] + b;
      RemoverPontuacaoConcat(a[1..], b);
    }
  }

  lemma {:induction false} RemoverPontuacaoSemPontuacao(s: string)
    requires SemPontuacao(s)
    ensures RemoverPontuacao(s) == s
  {
    if s != [] {
      RemoverPontuacaoSemPontuacao(s[1..]);
    }
  }

  /** The CPF layout `XXX.XXX.XXX-XX` of an 11-character value. */
  function MascaraCpf(c: string): string
    requires |c| == 11
  {
    c[..3] + "." + c[3..6] + "." + c[6..9] + "-" + c[9..]
  }

  /** The CNPJ layout `XX.XXX.XXX/XXXX-XX` of a 14-character value. */
  function MascaraCnpj(c: string): string
    requires |c| == 14
  {
    c[..2] + "." + c[2..5] + "." + c[5..8] + "/" + c[8..12] + "-" + c[12..]
  }

  /** `Pessoa.formatar_cpf_cnpj()` on the stored value `cpfCnpj`. */
  function FormatarCpfCnpj(cpfCnpj: string): (r: string)
    ensures |RemoverPontuacao(cpfCnpj)| == 11 ==> |r| == 14
    ensures |RemoverPontuacao(cpfCnpj)| == 14 ==> |r| == 18
    ensures |RemoverPontuacao(cpfCnpj)| != 11 && |RemoverPontuacao(cpfCnpj)| != 14 ==> r == cpfCnpj
  {
    var c := RemoverPontuacao(cpfCnpj);
    if |c| == 11 then MascaraCpf(c)
    else if |c| == 14 then MascaraCnpj(c)
    else cpfCnpj
  }

  /** The separators of the CPF layout sit at fixed places and the digits
      keep their order around them. */
  lemma MascaraCpfPosicoes(c: string)
    requires |c| == 11
    ensures var r := MascaraCpf(c);
            |r| == 14 && r[3] == '.' && r[7] == '.' && r[11] == '-'
            && r[..3] == c[..3] && r[4..7] == c[3..6] && r[8..11] == c[6..9] && r[12..] == c[9..]
  {
  }

  lemma MascaraCnpjPosicoes(c: string)
    requires |c| == 14
    ensures var r := MascaraCnpj(c);
            |r| == 18 && r[2] == '.' && r[6] == '.' && r[10] == '/' && r[15] == '-'
            && r[..2] == c[..2] && r[3..6] == c[2..5] && r[7..10] == c[5..8]
            && r[11..15] == c[8..12] && r[16..] == c[12..]
  {
  }

  lemma PontuacaoSeparador(sep: string)
    requires sep == "." || sep == "-" || sep == "/"
    ensures RemoverPontuacao(sep) == []
  {
  }

  /** A separator between two pieces disappears, and a clean tail stays as it is. */
  lemma AnexarSeparado(p: string, sep: string, q: string)
    requires sep == "." || sep == "-" || sep == "/"
    requires SemPontuacao(q)
    ensures RemoverPontuacao(p + sep + q) == RemoverPontuacao(p) + q
  {
    RemoverPontuacaoConcat(p + sep, q);
    RemoverPontuacaoConcat(p, sep);
    RemoverPontuacaoSemPontuacao(q);
    PontuacaoSeparador(sep);
  }

  /** Removing the separators from a layout gives back the value it was built from. */
  lemma RemoverPontuacaoMascaraCpf(c: string)
    requires |c| == 11 && SemPontuacao(c)
    ensures RemoverPontuacao(MascaraCpf(c)) == c
  {
    var a, b, d, e := c[..3], c[3..6], c[6..9], c[9..];
    RemoverPontuacaoSemPontuacao(a);
    var p2 := a + "." + b;
    AnexarSeparado(a, ".", b);
    var p3 := p2 + "." + d;
    AnexarSeparado(p2, ".", d);
    AnexarSeparado(p3, "-", e);
    assert MascaraCpf(c) == p3 + "-" + e;
    assert a + b + d + e == c;
  }

  lemma RemoverPontuacaoMascaraCnpj(c: string)
    requires |c| == 14 && SemPontuacao(c)
    ensures RemoverPontuacao(MascaraCnpj(c)) == c
  {
    var a, b, d, e, f := c[..2], c[2..5], c[5..8], c[8..12], c[12..];
    RemoverPontuacaoSemPontuacao(a);
    var p2 := a + "." + b;
    AnexarSeparado(a, ".", b);
    var p3 := p2 + "." + d;
    AnexarSeparado(p2, ".", d);
    var p4 := p3 + "/" + e;
    AnexarSeparado(p3, "/", e);
    AnexarSeparado(p4, "-", f);
    assert MascaraCnpj(c) == p4 + "-" + f;
    assert a + b + d + e + f == c;
  }

  /** Formatting never changes the value once the separators are removed. */
  lemma FormatarPreservaValor(cpfCnpj: string)
    ensures RemoverPontuacao(FormatarCpfCnpj(cpfCnpj)) == RemoverPontuacao(cpfCnpj)
  {
    var c := RemoverPontuacao(cpfCnpj);
    if |c| == 11 {
      RemoverPontuacaoMascaraCpf(c);
    } else if |c| == 14 {
      RemoverPontuacaoMascaraCnpj(c);
    }
  }

  /** Formatting an already formatted value changes nothing. */
  lemma FormatarIdempotente(cpfCnpj: string)
    ensures FormatarCpfCnpj(FormatarCpfCnpj(cpfCnpj)) == FormatarCpfCnpj(cpfCnpj)
  {
    FormatarPreservaValor(cpfCnpj);
  }

  /** Values that differ only in their separators are shown the same way
      when they hold 11 or 14 characters. */
  lemma FormatarIgnoraPontuacao(a: string, b: string)
    requires RemoverPontuacao(a) == RemoverPontuacao(b)
    requires |RemoverPontuacao(a)| == 11 || |RemoverPontuacao(a)| == 14
    ensures FormatarCpfCnpj(a) == FormatarCpfCnpj(b)
  {
  }
}
