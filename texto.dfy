/**
 * The JavaScript string and number conversions the core relies on: `trim`, `toLowerCase`,
 * `toUpperCase`, `includes`, `parseInt` (no radix), `Number.prototype.toString`, `padStart`
 * and `replace(/[^0-9]/g, '')`.
 */
module Texto {
  import opened Comum

  // ---------------------------------------------------------------- whitespace and trim

  /** The WhiteSpace and LineTerminator characters of ECMAScript, skipped by `trim` and `parseInt`. */
  predicate EhEspaco(c: char) {
    c == '\t' || c == '\n' || c == '\U{000B}' || c == '\U{000C}' || c == '\r' || c == ' '
    || c == '\U{00A0}' || c == '\U{1680}' || ('\U{2000}' <= c <= '\U{200A}')
    || c == '\U{2028}' || c == '\U{2029}' || c == '\U{202F}' || c == '\U{205F}'
    || c == '\U{3000}' || c == '\U{FEFF}'
  }

  /** `s` without its leading whitespace: the longest suffix that does not start with whitespace. */
  function SemEspacosIniciais(s: string): (r: string)
    ensures |r| <= |s| && r == s[|s| - |r|..]
    ensures forall i :: 0 <= i < |s| - |r| ==> EhEspaco(s[i])
    ensures r != [] ==> !EhEspaco(r[0])
  {
    if s != [] && EhEspaco(s[0]) then
      var r := SemEspacosIniciais(s[1..]);
      assert forall i :: 1 <= i < |s| ==> s[i] == s[1..][i - 1];
      r
    else s
  }

  /** `s` without its trailing whitespace. */
  function SemEspacosFinais(s: string): (r: string)
    ensures |r| <= |s| && r == s[..|r|]
    ensures forall i :: |r| <= i < |s| ==> EhEspaco(s[i])
    ensures r != [] ==> !EhEspaco(r[|r| - 1])
  {
    if s != [] && EhEspaco(s[|s| - 1]) then SemEspacosFinais(s[..|s| - 1]) else s
  }

  /** `String.prototype.trim`. */
  function Trim(s: string): (r: string)
    ensures |r| <= |s|
    ensures r != [] ==> !EhEspaco(r[0]) && !EhEspaco(r[|r| - 1])
    ensures (r == []) <==> forall i :: 0 <= i < |s| ==> EhEspaco(s[i])
  {
    var t := SemEspacosIniciais(s);
    var r := SemEspacosFinais(t);
    assert r == [] ==> t == [];
    r
  }

  // ---------------------------------------------------------------- case

  /** `toLowerCase` on one character, for Basic Latin and Latin-1 letters. */
  function MinusculaChar(c: char): (r: char)
    ensures 'A' <= c <= 'Z' ==> 'a' <= r <= 'z'
    ensures !('A' <= c <= 'Z') && !('\U{00C0}' <= c <= '\U{00DE}') ==> r == c
  {
    if 'A' <= c <= 'Z' || ('\U{00C0}' <= c <= '\U{00DE}' && c != '\U{00D7}') then
      (c as int + 32) as char
    else c
  }

  /** `toUpperCase` on one character, for Basic Latin and Latin-1 letters. */
  function MaiusculaChar(c: char): (r: char)
    ensures 'a' <= c <= 'z' ==> 'A' <= r <= 'Z'
    ensures !('a' <= c <= 'z') && !('\U{00E0}' <= c <= '\U{00FE}') ==> r == c
  {
    if 'a' <= c <= 'z' || ('\U{00E0}' <= c <= '\U{00FE}' && c != '\U{00F7}') then
      (c as int - 32) as char
    else c
  }

  function Minusculas(s: string): (r: string)
    ensures |r| == |s| && forall i :: 0 <= i < |s| ==> r[i] == MinusculaChar(s[i])
  {
    seq(|s|, i requires 0 <= i < |s| => MinusculaChar(s[i]))
  }

  function Maiusculas(s: string): (r: string)
    ensures |r| == |s| && forall i :: 0 <= i < |s| ==> r[i] == MaiusculaChar(s[i])
  {
    seq(|s|, i requires 0 <= i < |s| => MaiusculaChar(s[i]))
  }

  /** Lower-casing does not create or remove whitespace. */
  lemma MinusculaPreservaEspaco(c: char)
    ensures EhEspaco(MinusculaChar(c)) <==> EhEspaco(c)
  {
  }

  lemma MaiusculaPreservaEspaco(c: char)
    ensures EhEspaco(MaiusculaChar(c)) <==> EhEspaco(c)
  {
  }

  /** A text made only of capital letters A to Z is its own upper case. */
  lemma MaiusculasDeMaiusculas(s: string)
    requires forall i :: 0 <= i < |s| ==> 'A' <= s[i] <= 'Z'
    ensures Maiusculas(s) == s
  {
  }

  /** Upper-casing neither adds nor removes whitespace, so it commutes with trimming at the ends. */
  lemma MaiusculasPontas(s: string)
    requires s != [] && !EhEspaco(s[0]) && !EhEspaco(s[|s| - 1])
    ensures Trim(Maiusculas(s)) == Maiusculas(s)
  {
    var u := Maiusculas(s);
    MaiusculaPreservaEspaco(s[0]);
    MaiusculaPreservaEspaco(s[|s| - 1]);
    TrimSemEspacosNasPontas(u);
  }

  /** Trimming a text that neither starts nor ends with whitespace changes nothing. */
  lemma TrimSemEspacosNasPontas(s: string)
    requires s != [] && !EhEspaco(s[0]) && !EhEspaco(s[|s| - 1])
    ensures Trim(s) == s
  {
    var t := SemEspacosIniciais(s);
    assert t == s;
  }

  // ---------------------------------------------------------------- includes

  /** `s.includes(t)`: `t` occurs in `s` at some position (the empty string occurs everywhere). */
  predicate Contem(s: string, t: string) {
    exists i :: 0 <= i <= |s| && t <= s[i..]
  }

  lemma ContemVazio(s: string)
    ensures Contem(s, "")
  {
    assert "" <= s[0..];
  }

  // ---------------------------------------------------------------- digits

  /** Value of `c` as a digit of base 36 (0-9, then a-z / A-Z), if it is one. */
  function ValorDigito(c: char): (v: Option<nat>)
    ensures v.Some? ==> v.value < 36
    ensures v.Some? && v.value < 10 <==> '0' <= c <= '9'
  {
    if '0' <= c <= '9' then Some(c as int - '0' as int)
    else if 'a' <= c <= 'z' then Some(c as int - 'a' as int + 10)
    else if 'A' <= c <= 'Z' then Some(c as int - 'A' as int + 10)
    else None
  }

  predicate EhDigito(c: char, base: nat) {
    ValorDigito(c).Some? && ValorDigito(c).value < base
  }

  predicate SoDigitos(s: string, base: nat) {
    forall i :: 0 <= i < |s| ==> EhDigito(s[i], base)
  }

  /** The longest prefix of `s` made of digits of `base`. */
  function PrefixoDigitos(s: string, base: nat): (r: string)
    ensures r <= s && SoDigitos(r, base)
    ensures |r| < |s| ==> !EhDigito(s[|r|], base)
  {
    if s != [] && EhDigito(s[0], base) then [s[0]] + PrefixoDigitos(s[1..], base) else []
  }

  /** The number written by the digits `ds` in `base`, most significant first. */
  function ValorEm(ds: string, base: nat): nat
    requires SoDigitos(ds, base)
  {
    if ds == [] then 0
    else ValorEm(ds[..|ds| - 1], base) * base + ValorDigito(ds[|ds| - 1]).value
  }

  /**
   * `parseInt(s)` with no radix, NaN being `None`: leading whitespace is skipped, one sign
   * is read, a `0x`/`0X` prefix switches to base 16, and the longest run of digits that
   * follows is the value; no digit at all gives NaN.
   */
  function ParseInt(s: string): (r: Option<int>)
  {
    var t := SemEspacosIniciais(s);
    var sinal := if t != [] && t[0] == '-' then -1 else 1;
    var u := if t != [] && (t[0] == '-' || t[0] == '+') then t[1..] else t;
    match Magnitude(u)
    case None => None
    case Some(m) => Some(sinal * m)
  }

  /** An answer that `parseInt` reads as a number is not blank. */
  lemma ParseIntNaoBranco(s: string)
    requires ParseInt(s).Some?
    ensures Trim(s) != []
  {
    var t := SemEspacosIniciais(s);
    assert Magnitude([]) == None;
    assert s[|s| - |t|] == t[0];
  }

  /** The unsigned part of `parseInt`: an optional `0x`/`0X` prefix, then the digit run. */
  function Magnitude(u: string): Option<nat>
  {
    if |u| >= 2 && u[0] == '0' && (u[1] == 'x' || u[1] == 'X') then LerDigitos(u[2..], 16)
    else LerDigitos(u, 10)
  }

  function LerDigitos(v: string, base: nat): Option<nat>
  {
    var ds := PrefixoDigitos(v, base);
    if ds == [] then None else Some(ValorEm(ds, base))
  }

  // ---------------------------------------------------------------- number to text

  function DigitoDecimal(d: nat): (c: char)
    requires d < 10
    ensures '0' <= c <= '9' && ValorDigito(c) == Some(d)
  {
    ('0' as int + d) as char
  }

  /** Decimal digits of a natural number, without leading zeros. */
  function Decimal(n: nat): (r: string)
    ensures r != [] && SoDigitos(r, 10)
    ensures forall i :: 0 <= i < |r| ==> '0' <= r[i] <= '9'
  {
    if n < 10 then [DigitoDecimal(n)] else Decimal(n / 10) + [DigitoDecimal(n % 10)]
  }

  /** `n.toString()` for an integer `n`. */
  function NumeroParaTexto(n: int): string {
    if n < 0 then "-" + Decimal(-n) else Decimal(n)
  }

  lemma {:induction false} ValorDecimal(n: nat)
    ensures ValorEm(Decimal(n), 10) == n
  {
    if n >= 10 {
      var ds := Decimal(n);
      assert ds[..|ds| - 1] == Decimal(n / 10);
      ValorDecimal(n / 10);
    }
  }

  lemma {:induction false} PrefixoDeDigitos(s: string, base: nat)
    requires SoDigitos(s, base)
    ensures PrefixoDigitos(s, base) == s
  {
    if s != [] {
      PrefixoDeDigitos(s[1..], base);
    }
  }

  /** Reading back what `toString` wrote gives the same integer. */
  lemma ParseIntNumeroParaTexto(n: int)
    ensures ParseInt(NumeroParaTexto(n)) == Some(n)
  {
    var m: nat := if n < 0 then -n else n;
    MagnitudeDecimal(m);
    var d := Decimal(m);
    if n < 0 {
      ParseIntNegativo(d);
    } else {
      assert '0' <= d[0] <= '9';
      ParseIntSemSinal(d);
    }
  }

  /** A minus sign in front of an unsigned numeral negates its reading. */
  lemma ParseIntNegativo(d: string)
    requires Magnitude(d).Some?
    ensures ParseInt("-" + d) == Some(-(Magnitude(d).value as int))
  {
    var s := "-" + d;
    assert s[0] == '-' && !EhEspaco(s[0]);
    assert SemEspacosIniciais(s) == s;
    assert s[1..] == d;
  }

  /** A string of decimal digits that is not a hexadecimal prefix is read in base 10. */
  lemma MagnitudeDecimalDe(ds: string)
    requires SoDigitos(ds, 10)
    ensures Magnitude(ds) == if ds == [] then None else Some(ValorEm(ds, 10))
  {
    assert |ds| >= 2 ==> ds[1] != 'x' && ds[1] != 'X' by {
      if |ds| >= 2 { assert EhDigito(ds[1], 10); }
    }
    PrefixoDeDigitos(ds, 10);
  }

  lemma MagnitudeDecimal(m: nat)
    ensures Magnitude(Decimal(m)) == Some(m)
  {
    MagnitudeDecimalDe(Decimal(m));
    ValorDecimal(m);
  }

  /** For a string of decimal digits only, `parseInt` is its decimal value (NaN when empty). */
  lemma ParseIntSoDigitos(ds: string)
    requires SoDigitos(ds, 10)
    ensures ParseInt(ds) == if ds == [] then None else Some(ValorEm(ds, 10))
  {
    MagnitudeDecimalDe(ds);
    if ds != [] {
      assert EhDigito(ds[0], 10);
      assert '0' <= ds[0] <= '9';
    }
    ParseIntSemSinal(ds);
  }

  /** Without leading whitespace or sign, `parseInt` is the unsigned reading. */
  lemma ParseIntSemSinal(s: string)
    requires s != [] ==> !EhEspaco(s[0]) && s[0] != '-' && s[0] != '+'
    ensures Magnitude(s).None? ==> ParseInt(s).None?
    ensures Magnitude(s).Some? ==> ParseInt(s) == Some(Magnitude(s).value as int)
  {
    assert SemEspacosIniciais(s) == s;
  }

  // ---------------------------------------------------------------- padding and digit extraction

  function Repetir(c: char, n: nat): (r: string)
    ensures |r| == n && forall i :: 0 <= i < n ==> r[i] == c
  {
    if n == 0 then [] else [c] + Repetir(c, n - 1)
  }

  /** `s.padStart(n, c)` for a one-character pad. */
  function PadStart(s: string, n: nat, c: char): (r: string)
    ensures |r| == if |s| >= n then |s| else n
    ensures s <= r[|r| - |s|..] && r[|r| - |s|..] == s
    ensures forall i :: 0 <= i < |r| - |s| ==> r[i] == c
  {
    if |s| >= n then s else Repetir(c, n - |s|) + s
  }

  /** Leading zeros do not change a decimal value. */
  lemma {:induction false} ZerosAEsquerda(k: nat, ds: string)
    requires SoDigitos(ds, 10)
    ensures SoDigitos(Repetir('0', k) + ds, 10)
    ensures ValorEm(Repetir('0', k) + ds, 10) == ValorEm(ds, 10)
    decreases |ds|
  {
    var z := Repetir('0', k);
    if ds == [] {
      assert z + ds == z;
      ZerosValemZero(k);
    } else {
      var pre := ds[..|ds| - 1];
      ZerosAEsquerda(k, pre);
      assert (z + ds)[..|z + ds| - 1] == z + pre;
    }
  }

  lemma {:induction false} ZerosValemZero(k: nat)
    ensures SoDigitos(Repetir('0', k), 10)
    ensures ValorEm(Repetir('0', k), 10) == 0
  {
    if k > 0 {
      var z := Repetir('0', k);
      assert z[..k - 1] == Repetir('0', k - 1);
      ZerosValemZero(k - 1);
    }
  }

  /** `s.replace(/[^0-9]/g, '')`: the ASCII decimal digits of `s`, in order. */
  function ApenasDigitos(s: string): (r: string)
    ensures SoDigitos(r, 10) && |r| <= |s|
    ensures forall c :: c in r <==> c in s && '0' <= c <= '9'
  {
    if s == [] then []
    else (if '0' <= s[0] <= '9' then [s[0]] else []) + ApenasDigitos(s[1..])
  }

  lemma {:induction false} ApenasDigitosConcat(a: string, b: string)
    ensures ApenasDigitos(a + b) == ApenasDigitos(a) + ApenasDigitos(b)
    decreases |a|
  {
    if a != [] {
      assert (a + b)[1..] == a[1..] + b;
      ApenasDigitosConcat(a[1..], b);
    } else {
      assert a + b == b;
    }
  }

  lemma {:induction false} ApenasDigitosDeDigitos(s: string)
    requires forall i :: 0 <= i < |s| ==> '0' <= s[i] <= '9'
    ensures ApenasDigitos(s) == s
  {
    if s != [] {
      ApenasDigitosDeDigitos(s[1..]);
    }
  }
}
