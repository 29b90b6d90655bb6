/**
 Association lists of bounded length, as the fixed-capacity vectors of the stack
 hold them, and the maps they stand for.
 */
module Assoc {

  predicate DistinctKeys<K(==), V>(s: seq<(K, V)>) {
    forall i, j :: 0 <= i < j < |s| ==> s[i].0 != s[j].0
  }

  ghost function ToMap<K, V>(s: seq<(K, V)>): (m: map<K, V>) {
    if s == [] then map[]
    else ToMap(s[..|s| - 1])[s[|s| - 1].0 := s[|s| - 1].1]
  }

  /** The map has exactly the pairs of the list. */
  lemma {:induction false} ToMapPairs<K(!new), V(!new)>(s: seq<(K, V)>)
    requires DistinctKeys(s)
    ensures forall e :: e in s ==> e.0 in ToMap(s) && ToMap(s)[e.0] == e.1
    ensures forall k :: k in ToMap(s) ==> (k, ToMap(s)[k]) in s
    ensures |ToMap(s)| == |s|
  {
    if s != [] {
      var init, last := s[..|s| - 1], s[|s| - 1];
      ToMapPairs(init);
      assert s == init + [last];
    }
  }

  lemma ToMapUnique<K(!new), V(!new)>(s: seq<(K, V)>, m: map<K, V>)
    requires DistinctKeys(s)
    requires forall e :: e in s ==> e.0 in m && m[e.0] == e.1
    requires forall k :: k in m ==> (k, m[k]) in s
    ensures ToMap(s) == m
  {
    ToMapPairs(s);
    var c := ToMap(s);
    assert forall k :: k in m ==> (k, m[k]).0 in c;
    assert forall k :: k in c ==> (k, c[k]).0 in m;
  }

  /** The index of the first pair with key `k`, or the length of the list. */
  function IndexOf<K(==), V>(s: seq<(K, V)>, k: K): (i: nat)
    ensures i <= |s|
    ensures i < |s| ==> s[i].0 == k
    ensures forall j :: 0 <= j < i ==> s[j].0 != k
  {
    if s == [] then 0
    else if s[0].0 == k then 0
    else
      var i := IndexOf(s[1..], k);
      assert forall j :: 1 <= j < |s| ==> s[j] == s[1..][j - 1];
      i + 1
  }

  lemma IndexOfMember<K(!new), V(!new)>(s: seq<(K, V)>, k: K)
    requires DistinctKeys(s)
    ensures IndexOf(s, k) < |s| <==> k in ToMap(s)
    ensures k in ToMap(s) ==> ToMap(s)[k] == s[IndexOf(s, k)].1
  {
    ToMapPairs(s);
    var i := IndexOf(s, k);
    if i < |s| {
      assert s[i] in s;
    }
  }

  lemma ToMapUpdate<K(!new), V(!new)>(s: seq<(K, V)>, i: nat, v: V)
    requires DistinctKeys(s) && i < |s|
    ensures DistinctKeys(s[i := (s[i].0, v)])
    ensures ToMap(s[i := (s[i].0, v)]) == ToMap(s)[s[i].0 := v]
  {
    ToMapPairs(s);
    var s', m := s[i := (s[i].0, v)], ToMap(s)[s[i].0 := v];
    assert s[i] in s;
    forall e | e in s'
      ensures e.0 in m && m[e.0] == e.1
    {
      var j :| 0 <= j < |s'| && s'[j] == e;
      assert j != i ==> s[j] in s;
    }
    forall k | k in m
      ensures (k, m[k]) in s'
    {
      if k == s[i].0 {
        assert s'[i] == (k, m[k]);
      } else {
        var j :| 0 <= j < |s| && s[j] == (k, m[k]);
        assert s'[j] == s[j];
      }
    }
    ToMapUnique(s', m);
  }

  lemma ToMapAppend<K(!new), V(!new)>(s: seq<(K, V)>, k: K, v: V)
    requires DistinctKeys(s) && k !in ToMap(s)
    ensures DistinctKeys(s + [(k, v)])
    ensures ToMap(s + [(k, v)]) == ToMap(s)[k := v]
  {
    ToMapPairs(s);
    forall i | 0 <= i < |s|
      ensures s[i].0 != k
    {
      assert s[i] in s;
    }
    ToMapUnique(s + [(k, v)], ToMap(s)[k := v]);
  }

  /** Sets the value of `k`, adding it at the end while there is room. */
  function Put<K(==), V>(s: seq<(K, V)>, k: K, v: V, capacity: nat): (r: seq<(K, V)>) {
    var i := IndexOf(s, k);
    if i < |s| then s[i := (k, v)]
    else if |s| < capacity then s + [(k, v)]
    else s
  }

  lemma PutMap<K(!new), V(!new)>(s: seq<(K, V)>, k: K, v: V, capacity: nat)
    requires DistinctKeys(s) && |s| <= capacity
    ensures DistinctKeys(Put(s, k, v, capacity)) && |Put(s, k, v, capacity)| <= capacity
    ensures ToMap(Put(s, k, v, capacity))
            == if k in ToMap(s) || |ToMap(s)| < capacity then ToMap(s)[k := v] else ToMap(s)
  {
    IndexOfMember(s, k);
    ToMapPairs(s);
    var i := IndexOf(s, k);
    if i < |s| {
      ToMapUpdate(s, i, v);
    } else if |s| < capacity {
      ToMapAppend(s, k, v);
    }
  }

  /** Keeps the pairs whose key is not dropped. */
  function Without<K(==, !new), V(!new)>(s: seq<(K, V)>, drop: set<K>): (r: seq<(K, V)>)
    ensures |r| <= |s|
    ensures forall e :: e in r <==> e in s && e.0 !in drop
  {
    if s == [] then []
    else
      var n := |s| - 1;
      assert s == s[..n] + [s[n]];
      Without(s[..n], drop) + (if s[n].0 in drop then [] else [s[n]])
  }

  lemma {:induction false} WithoutDistinct<K(!new), V(!new)>(s: seq<(K, V)>, drop: set<K>)
    requires DistinctKeys(s)
    ensures DistinctKeys(Without(s, drop))
  {
    if s != [] {
      var n := |s| - 1;
      WithoutDistinct(s[..n], drop);
      var r := Without(s[..n], drop);
      assert forall i :: 0 <= i < |r| ==> r[i] in s[..n];
    }
  }

  lemma WithoutMap<K(!new), V(!new)>(s: seq<(K, V)>, drop: set<K>)
    requires DistinctKeys(s)
    ensures DistinctKeys(Without(s, drop))
    ensures ToMap(Without(s, drop)) == ToMap(s) - drop
  {
    WithoutDistinct(s, drop);
    ToMapPairs(s);
    ToMapUnique(Without(s, drop), ToMap(s) - drop);
  }

  /** Replaces every value by what `f` makes of it. */
  function MapValues<K, V>(s: seq<(K, V)>, f: (K, V) -> V): (r: seq<(K, V)>)
    ensures |r| == |s|
    ensures forall i :: 0 <= i < |s| ==> r[i] == (s[i].0, f(s[i].0, s[i].1))
  {
    seq(|s|, i requires 0 <= i < |s| => (s[i].0, f(s[i].0, s[i].1)))
  }

  lemma MapValuesMap<K(!new), V(!new)>(s: seq<(K, V)>, f: (K, V) -> V)
    requires DistinctKeys(s)
    ensures DistinctKeys(MapValues(s, f))
    ensures ToMap(MapValues(s, f)) == map k | k in ToMap(s) :: f(k, ToMap(s)[k])
  {
    hide ToMap;
    ToMapPairs(s);
    var r, m := MapValues(s, f), map k | k in ToMap(s) :: f(k, ToMap(s)[k]);
    forall e | e in r
      ensures e.0 in m && m[e.0] == e.1
    {
      var i :| 0 <= i < |r| && r[i] == e;
      assert s[i] in s;
    }
    forall k | k in m
      ensures (k, m[k]) in r
    {
      var i :| 0 <= i < |s| && s[i] == (k, ToMap(s)[k]);
      assert r[i] == (k, m[k]);
    }
    ToMapUnique(r, m);
  }

  // ------------------------------------------------------------------
  // Loops over the list
  // ------------------------------------------------------------------

  lemma {:induction false} WithoutStep<K(!new), V(!new)>(s: seq<(K, V)>, drop: set<K>, i: nat)
    requires i < |s|
    ensures Without(s[..i + 1], drop) == Without(s[..i], drop) + if s[i].0 in drop then [] else [s[i]]
  {
    assert s[..i + 1][..i] == s[..i];
  }

  /** Keeps the pairs whose key is another one, as `retain` does. */
  method Retain<K(==, !new), V(!new)>(s: seq<(K, V)>, key: K) returns (r: seq<(K, V)>)
    ensures r == Without(s, {key})
  {
    r := [];
    for i := 0 to |s|
      invariant r == Without(s[..i], {key})
    {
      WithoutStep(s, {key}, i);
      if s[i].0 != key {
        r := r + [s[i]];
      }
    }
    assert s[..|s|] == s;
  }

  method Position<K(==, !new), V(!new)>(s: seq<(K, V)>, key: K) returns (i: nat)
    ensures i == IndexOf(s, key)
  {
    i := 0;
    while i < |s| && s[i].0 != key
      invariant i <= |s| && forall j :: 0 <= j < i ==> s[j].0 != key
    {
      i := i + 1;
    }
  }

  /** Sets the value of a key, or pushes it when there is room. */
  method Upsert<K(==, !new), V(!new)>(s: seq<(K, V)>, key: K, value: V, capacity: nat) returns (r: seq<(K, V)>)
    ensures r == Put(s, key, value, capacity)
  {
    var i := Position(s, key);
    if i < |s| {
      r := s[i := (key, value)];
    } else if |s| < capacity {
      r := s + [(key, value)];
    } else {
      r := s;
    }
  }
}
