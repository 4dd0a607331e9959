/**
 * A JavaScript `Map<string, V>`: a dictionary that remembers the order in which its keys
 * were first inserted. Iteration (`values()`, `for ... of`) follows that order.
 */
module MapaOrdenado {
  import opened Comum

  /** `s` with every occurrence of `x` removed, the others in their order; in a list without repeats, the one occurrence. */
  function SemElemento<T(==)>(s: seq<T>, x: T): (r: seq<T>)
    ensures x !in r && |r| <= |s|
    ensures forall y :: y in r ==> y in s
    ensures forall y :: y in s && y != x ==> y in r
    ensures SemRepeticao(s) ==> SemRepeticao(r)
    ensures x !in s ==> r == s
    ensures SemRepeticao(s) && x in s ==> r == s[..IndiceDe(s, x)] + s[IndiceDe(s, x) + 1..]
  {
    if s == [] then []
    else
      var resto := SemElemento(s[1..], x);
      SemElementoCons(s, x, resto);
      SemElementoConsOrdem(s, x, resto);
      (if s[0] == x then [] else [s[0]]) + resto
  }

  /** The step of `SemElemento` for membership and repeats. */
  lemma SemElementoCons<T>(s: seq<T>, x: T, resto: seq<T>)
    requires s != []
    requires forall y :: y in resto ==> y in s[1..]
    requires forall y :: y in s[1..] && y != x ==> y in resto
    requires SemRepeticao(s[1..]) ==> SemRepeticao(resto)
    ensures var r := (if s[0] == x then [] else [s[0]]) + resto;
            (forall y :: y in r ==> y in s) && (forall y :: y in s && y != x ==> y in r)
            && (SemRepeticao(s) ==> SemRepeticao(r))
  {
    SemRepeticaoCons(s[0], s[1..]);
    SemRepeticaoCons(s[0], resto);
    assert s == [s[0]] + s[1..];
  }

  /** The step of `SemElemento` for order: without `x` nothing goes; without repeats only its one occurrence goes. */
  lemma SemElementoConsOrdem<T>(s: seq<T>, x: T, resto: seq<T>)
    requires s != []
    requires x !in s[1..] ==> resto == s[1..]
    requires SemRepeticao(s[1..]) && x in s[1..] ==>
               resto == s[1..][..IndiceDe(s[1..], x)] + s[1..][IndiceDe(s[1..], x) + 1..]
    ensures var r := (if s[0] == x then [] else [s[0]]) + resto;
            (x !in s ==> r == s)
            && (SemRepeticao(s) && x in s ==> r == s[..IndiceDe(s, x)] + s[IndiceDe(s, x) + 1..])
  {
    assert s == [s[0]] + s[1..];
    if SemRepeticao(s) && x in s {
      SemRepeticaoCons(s[0], s[1..]);
      if s[0] == x {
        assert s[..0] + s[1..] == s[1..];
      } else {
        SemElementoPasso(s, x, resto);
      }
    }
  }

  /** Past a head that is not `x`, the position of `x` moves up by one. */
  lemma SemElementoPasso<T>(s: seq<T>, x: T, resto: seq<T>)
    requires s != [] && s[0] != x && x in s[1..]
    requires resto == s[1..][..IndiceDe(s[1..], x)] + s[1..][IndiceDe(s[1..], x) + 1..]
    ensures [s[0]] + resto == s[..IndiceDe(s, x)] + s[IndiceDe(s, x) + 1..]
  {
    var j := IndiceDe(s[1..], x);
    assert IndiceDe(s, x) == j + 1;
    RemocaoNaCauda(s, j);
  }

  /** Removing position j of the tail, then putting the head back, removes position j + 1. */
  lemma RemocaoNaCauda<T>(s: seq<T>, j: nat)
    requires j + 1 < |s|
    ensures [s[0]] + (s[1..][..j] + s[1..][j + 1..]) == s[..j + 1] + s[j + 2..]
  {
    var t := s[1..];
    assert s[..j + 1] == [s[0]] + t[..j];
    assert s[j + 2..] == t[j + 1..];
  }

  lemma SemRepeticaoCons<T>(a: T, s: seq<T>)
    ensures SemRepeticao([a] + s) <==> a !in s && SemRepeticao(s)
  {
    var t := [a] + s;
    if SemRepeticao(t) {
      assert forall i, j :: 0 <= i < j < |s| ==> s[i] == t[i + 1] && s[j] == t[j + 1];
      assert forall j :: 0 <= j < |s| ==> s[j] == t[j + 1] && t[j + 1] != t[0];
    }
  }

  datatype Mapa<V> = Mapa(chaves: seq<string>, entradas: map<string, V>) {

    /** Keys are listed once each, and exactly the keys of the dictionary are listed. */
    ghost predicate Valido() {
      SemRepeticao(chaves) && entradas.Keys == set k | k in chaves
    }

    /** `new Map()`. */
    static function Vazio(): (m: Mapa<V>)
      ensures m.Valido() && m.chaves == [] && m.entradas == map[]
    {
      Mapa([], map[])
    }

    /** `has`. */
    predicate Tem(k: string) {
      k in entradas
    }

    /** `get`, with `undefined` as `None`. */
    function Obter(k: string): (r: Option<V>)
      ensures r.Some? <==> k in entradas
      ensures r.Some? ==> r.value == entradas[k]
    {
      if k in entradas then Some(entradas[k]) else None
    }

    /** `set`: a new key goes to the end; an existing key keeps its place and gets the new value. */
    function Definir(k: string, v: V): (m: Mapa<V>)
      requires Valido()
      ensures m.Valido()
      ensures m.entradas == entradas[k := v]
      ensures m.chaves == if k in entradas then chaves else chaves + [k]
    {
      if k in entradas then Mapa(chaves, entradas[k := v]) else Mapa(chaves + [k], entradas[k := v])
    }

    /** `delete`: the key and its value go; the other keys keep their relative order. */
    function Remover(k: string): (m: Mapa<V>)
      requires Valido()
      ensures m.Valido()
      ensures m.entradas == entradas - {k}
      ensures m.chaves == SemElemento(chaves, k)
    {
      Mapa(SemElemento(chaves, k), entradas - {k})
    }

    /** `Array.from(values())`: the values in key-insertion order. */
    function Valores(): (r: seq<V>)
      requires Valido()
      ensures |r| == |chaves|
      ensures forall i :: 0 <= i < |chaves| ==> r[i] == entradas[chaves[i]]
    {
      seq(|chaves|, i requires 0 <= i < |chaves| => entradas[chaves[i]])
    }

    /** `size`. */
    function Tamanho(): (n: nat)
      requires Valido()
      ensures n == |entradas|
    {
      TamanhoSemRepeticao(chaves);
      |chaves|
    }
  }

  /** A list without repetitions has as many elements as the set of its elements. */
  lemma {:induction false} TamanhoSemRepeticao(s: seq<string>)
    requires SemRepeticao(s)
    ensures |set k | k in s| == |s|
  {
    if s != [] {
      var cauda := s[1..];
      TamanhoSemRepeticao(cauda);
      assert (set k | k in s) == (set k | k in cauda) + {s[0]};
      SemRepeticaoCons(s[0], cauda);
      assert s == [s[0]] + cauda;
    }
  }

  /** Every value listed by `Valores` is a value of the dictionary, and conversely. */
  lemma ValoresSaoEntradas<V>(m: Mapa<V>, v: V)
    requires m.Valido()
    ensures v in m.Valores() <==> exists k :: k in m.entradas && m.entradas[k] == v
  {
    var vs := m.Valores();
    if exists k :: k in m.entradas && m.entradas[k] == v {
      var k :| k in m.entradas && m.entradas[k] == v;
      assert k in m.chaves;
      var i :| 0 <= i < |m.chaves| && m.chaves[i] == k;
      assert vs[i] == v;
    }
  }
}
