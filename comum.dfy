/** Optional values: the model's counterpart of `undefined` / `null` results. */
module Comum {

  datatype Option<+T> = None | Some(value: T) {
    function GetOr(padrao: T): T {
      match this
      case Some(v) => v
      case None => padrao
    }
  }

  /** True iff no element of `s` occurs twice. */
  predicate SemRepeticao<T(==)>(s: seq<T>) {
    forall i, j :: 0 <= i < j < |s| ==> s[i] != s[j]
  }

  /** Appends `x` unless it is already present: the `includes`-guarded `push` of the source. */
  function AnexarSeAusente<T(==)>(s: seq<T>, x: T): (r: seq<T>)
    ensures x in r
    ensures forall y :: y in r ==> y in s || y == x
    ensures forall y :: y in s ==> y in r
    ensures multiset(r)[x] == if x in s then multiset(s)[x] else 1
    ensures SemRepeticao(s) ==> SemRepeticao(r)
  {
    if x in s then s else s + [x]
  }

  /** Linking twice is the same as linking once. */
  lemma AnexarIdempotente<T>(s: seq<T>, x: T)
    ensures AnexarSeAusente(AnexarSeAusente(s, x), x) == AnexarSeAusente(s, x)
  {
  }

  /** `indexOf`: the first position of `x` in `s`, or -1 when it does not occur. */
  function IndiceDe<T(==)>(s: seq<T>, x: T): (i: int)
    ensures -1 <= i < |s|
    ensures i == -1 <==> x !in s
    ensures i >= 0 ==> s[i] == x && x !in s[..i]
  {
    if s == [] then -1
    else if s[0] == x then 0
    else
      var j := IndiceDe(s[1..], x);
      assert s[1..][..j + 1] == s[1..j + 2] by { if j >= 0 { assert j + 2 <= |s|; } }
      if j == -1 then -1 else j + 1
  }

  /** `splice(indexOf(x), 1)` guarded by `indexOf(x) > -1`: drops the first occurrence of `x`. */
  function SemPrimeira<T(==)>(s: seq<T>, x: T): (r: seq<T>)
    ensures multiset(r) == multiset(s) - multiset{x}
    ensures SemRepeticao(s) ==> x !in r && SemRepeticao(r)
    ensures x !in s ==> r == s
    ensures x in s ==> r == s[..IndiceDe(s, x)] + s[IndiceDe(s, x) + 1..]
  {
    var i := IndiceDe(s, x);
    if i < 0 then
      assert multiset(s)[x] == 0;
      s
    else
      RemocaoNoIndice(s, i);
      s[..i] + s[i + 1..]
  }

  /** Removing position `i` takes exactly one copy of `s[i]` away, and keeps a repetition-free list so. */
  lemma RemocaoNoIndice<T>(s: seq<T>, i: nat)
    requires i < |s|
    ensures multiset(s[..i] + s[i + 1..]) == multiset(s) - multiset{s[i]}
    ensures SemRepeticao(s) ==> s[i] !in s[..i] + s[i + 1..] && SemRepeticao(s[..i] + s[i + 1..])
  {
    assert s == s[..i] + [s[i]] + s[i + 1..];
    if SemRepeticao(s) {
      RemocaoSemRepeticao(s, i);
    }
  }

  lemma RemocaoSemRepeticao<T>(s: seq<T>, i: nat)
    requires i < |s| && SemRepeticao(s)
    ensures s[i] !in s[..i] + s[i + 1..] && SemRepeticao(s[..i] + s[i + 1..])
  {
    var r := s[..i] + s[i + 1..];
    assert forall k :: 0 <= k < |r| ==> r[k] == (if k < i then s[k] else s[k + 1]);
    forall a, b | 0 <= a < b < |r| ensures r[a] != r[b] {
      var a' := if a < i then a else a + 1;
      var b' := if b < i then b else b + 1;
      assert r[a] == s[a'] && r[b] == s[b'] && a' < b';
    }
    forall k | 0 <= k < |r| ensures r[k] != s[i] {
      var k' := if k < i then k else k + 1;
      assert r[k] == s[k'] && k' != i;
    }
  }
}
