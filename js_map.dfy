/**
 * A JavaScript `Map`: a finite map that remembers the order in which keys
 * were first inserted. `Set` on an existing key keeps its position, `Delete`
 * removes it, and iteration (`keys()`, `values()`) follows insertion order.
 */
module JsMap {

  predicate Distinct<K(==)>(s: seq<K>) {
    forall i, j :: 0 <= i < j < |s| ==> s[i] != s[j]
  }

  datatype OrderedMap<K, V> = OrderedMap(keys: seq<K>, entries: map<K, V>) {

    ghost predicate Valid() {
      && Distinct(keys)
      && (forall k <- entries.Keys :: k in keys)
      && (forall i | 0 <= i < |keys| :: keys[i] in entries)
    }

    predicate Has(k: K) {
      k in entries
    }

    /** `map.set(k, v)`: a new key goes to the end, an existing one keeps its place. */
    function Set(k: K, v: V): (r: OrderedMap<K, V>)
      requires Valid()
      ensures r.Valid()
      ensures r.entries == entries[k := v]
      ensures k in keys ==> r.keys == keys
      ensures k !in keys ==> r.keys == keys + [k]
    {
      if k in keys then OrderedMap(keys, entries[k := v])
      else OrderedMap(keys + [k], entries[k := v])
    }

    /** `map.delete(k)`. */
    function Delete(k: K): (r: OrderedMap<K, V>)
      requires Valid()
      ensures r.Valid()
      ensures r.entries == entries - {k}
      ensures r.keys == Without(keys, k)
    {
      WithoutPreserves(keys, k);
      var ks := Without(keys, k);
      assert forall i | 0 <= i < |ks| :: ks[i] in ks;
      OrderedMap(ks, entries - {k})
    }

    /** `Array.from(map.values())`. */
    function Values(): (vs: seq<V>)
      requires Valid()
      ensures |vs| == |keys|
      ensures forall i :: 0 <= i < |keys| ==> vs[i] == entries[keys[i]]
    {
      ValuesOf(keys, entries)
    }
  }

  /** Every stored value is among `Values()`. */
  lemma ValueInValues<K, V>(m: OrderedMap<K, V>, k: K)
    requires m.Valid() && k in m.entries
    ensures m.entries[k] in m.Values()
  {
    var i :| 0 <= i < |m.keys| && m.keys[i] == k;
    assert m.Values()[i] == m.entries[k];
  }

  function ValuesOf<K, V>(ks: seq<K>, m: map<K, V>): (vs: seq<V>)
    requires forall k :: k in ks ==> k in m
    ensures |vs| == |ks|
    ensures forall i :: 0 <= i < |ks| ==> vs[i] == m[ks[i]]
  {
    if ks == [] then [] else [m[ks[0]]] + ValuesOf(ks[1..], m)
  }

  function Empty<K, V>(): (r: OrderedMap<K, V>)
    ensures r.Valid() && r.keys == [] && r.entries == map[]
  {
    OrderedMap([], map[])
  }

  /** The sequence with every occurrence of `x` removed, order kept. */
  function Without<K(==)>(s: seq<K>, x: K): (r: seq<K>)
    ensures forall y <- r :: y in s && y != x
    ensures forall y <- s :: y != x ==> y in r
    ensures |r| <= |s|
  {
    if s == [] then []
    else if s[0] == x then Without(s[1..], x)
    else [s[0]] + Without(s[1..], x)
  }

  lemma {:induction false} WithoutPreserves<K>(s: seq<K>, x: K)
    requires Distinct(s)
    ensures Distinct(Without(s, x))
    ensures x in s ==> |Without(s, x)| == |s| - 1
    ensures x !in s ==> Without(s, x) == s
  {
    if s != [] {
      DistinctTail(s);
      WithoutPreserves(s[1..], x);
      var w := Without(s[1..], x);
      if s[0] != x {
        assert s[0] !in s[1..];
        assert Without(s, x) == [s[0]] + w;
        DistinctCons(s[0], w);
      }
    }
  }

  lemma DistinctTail<K>(s: seq<K>)
    requires Distinct(s) && s != []
    ensures Distinct(s[1..]) && s[0] !in s[1..]
  {
    forall i, j | 0 <= i < j < |s| - 1
      ensures s[1..][i] != s[1..][j]
    {
      assert s[1..][i] == s[i + 1] && s[1..][j] == s[j + 1];
    }
    forall j | 0 <= j < |s| - 1
      ensures s[1..][j] != s[0]
    {
      assert s[1..][j] == s[j + 1];
    }
  }

  lemma DistinctCons<K>(a: K, w: seq<K>)
    requires Distinct(w) && a !in w
    ensures Distinct([a] + w)
  {
    var s := [a] + w;
    forall i, j | 0 <= i < j < |s|
      ensures s[i] != s[j]
    {
      if i == 0 {
        assert s[j] == w[j - 1];
      } else {
        assert s[i] == w[i - 1] && s[j] == w[j - 1];
      }
    }
  }
}
