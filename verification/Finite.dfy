/** Counting facts about finite sequences, sets and maps that several modules share. */
module Finite {

  ghost function Elems<T(!new)>(s: seq<T>): (r: set<T>)
    ensures forall x :: x in r <==> x in s
  {
    set x | x in s
  }

  ghost predicate NoDup<T>(s: seq<T>) {
    forall i, j :: 0 <= i < j < |s| ==> s[i] != s[j]
  }

  lemma {:induction false} NoDupSize<T(!new)>(s: seq<T>)
    requires NoDup(s)
    ensures |Elems(s)| == |s|
  {
    if s != [] {
      var t := s[1..];
      NoDupSize(t);
      assert s == [s[0]] + t;
      assert Elems(s) == Elems(t) + {s[0]};
      assert s[0] !in t;
    }
  }

  lemma SubsetSize<T>(a: set<T>, b: set<T>)
    requires a <= b
    ensures |a| <= |b|
  {
    assert b == (b - a) + a;
  }

  /** Some key of a non-empty map, always the same one for the same map. */
  ghost function Pick<K(!new), V>(m: map<K, V>): (k: K)
    requires m != map[]
    ensures k in m
  {
    var k :| k in m;
    k
  }

  /** The sum of a weight over the values of a map. */
  ghost function Total<K(!new), V>(m: map<K, V>, w: V -> nat): nat
    decreases |m|
  {
    if m == map[] then 0 else w(m[Pick(m)]) + Total(m - {Pick(m)}, w)
  }

  lemma {:induction false} TotalRemove<K(!new), V>(m: map<K, V>, w: V -> nat, k: K)
    requires k in m
    ensures Total(m, w) == w(m[k]) + Total(m - {k}, w)
    decreases |m|
  {
    var p := Pick(m);
    if p != k {
      TotalRemove(m - {p}, w, k);
      TotalRemove(m - {k}, w, p);
      assert m - {p} - {k} == m - {k} - {p};
    }
  }

  lemma TotalInsert<K(!new), V>(m: map<K, V>, w: V -> nat, k: K, v: V)
    requires k !in m
    ensures Total(m[k := v], w) == Total(m, w) + w(v)
  {
    TotalRemove(m[k := v], w, k);
    assert m[k := v] - {k} == m;
  }

  lemma TotalUpdate<K(!new), V>(m: map<K, V>, w: V -> nat, k: K, v: V)
    requires k in m
    ensures Total(m[k := v], w) + w(m[k]) == Total(m, w) + w(v)
  {
    TotalRemove(m[k := v], w, k);
    TotalRemove(m, w, k);
    assert m[k := v] - {k} == m - {k};
  }

  lemma {:induction false} TotalBelow<K(!new), V(!new)>(m: map<K, V>, v: V -> nat, w: V -> nat)
    requires forall k :: k in m ==> v(m[k]) <= w(m[k])
    ensures Total(m, v) <= Total(m, w)
    decreases |m|
  {
    if m != map[] {
      TotalBelow(m - {Pick(m)}, v, w);
    }
  }

  function Restrict<K, V>(m: map<K, V>, keys: set<K>): map<K, V> { map k | k in m && k in keys :: m[k] }

  lemma RestrictRemove<K, V>(m: map<K, V>, keys: set<K>, k: K)
    requires k in keys
    ensures (m - {k}) - (keys - {k}) == m - keys
    ensures Restrict(m - {k}, keys - {k}) == Restrict(m, keys) - {k}
  {}

  lemma RestrictSize<K, V>(m: map<K, V>, keys: set<K>)
    requires keys <= m.Keys
    ensures |m| == |m - keys| + |keys| && |Restrict(m, keys)| == |keys|
  {
    assert Restrict(m, keys).Keys == keys;
    assert m.Keys == (m - keys).Keys + keys;
  }

  lemma {:induction false} TotalSplit<K(!new), V>(m: map<K, V>, keys: set<K>, w: V -> nat)
    requires keys <= m.Keys
    ensures Total(m, w) == Total(m - keys, w) + Total(Restrict(m, keys), w)
    decreases |keys|
  {
    if keys == {} {
      assert m - keys == m;
      assert Restrict(m, keys) == map[];
    } else {
      var k :| k in keys;
      TotalSplit(m - {k}, keys - {k}, w);
      TotalRemove(m, w, k);
      TotalRemove(Restrict(m, keys), w, k);
      RestrictRemove(m, keys, k);
    }
  }
}
