/** Sums over the values of a finite map. */
module Sums {

  ghost function SumMap<K>(m: map<K, nat>): (total: nat)
  {
    if m == map[] then 0
    else
      var k :| k in m;
      m[k] + SumMap(m - {k})
  }

  lemma {:induction false} SumRemove<K>(m: map<K, nat>, k: K)
    requires k in m
    ensures SumMap(m) == m[k] + SumMap(m - {k})
    decreases |m|
  {
    var c :| c in m && SumMap(m) == m[c] + SumMap(m - {c});
    if c != k {
      SumRemove(m - {c}, k);
      SumRemove(m - {k}, c);
      assert m - {c} - {k} == m - {k} - {c};
    }
  }

  lemma SumInsert<K>(m: map<K, nat>, k: K, v: nat)
    requires k !in m
    ensures SumMap(m[k := v]) == SumMap(m) + v
  {
    SumRemove(m[k := v], k);
    assert m[k := v] - {k} == m;
  }

  lemma ElementWithinSum<K>(m: map<K, nat>, k: K)
    requires k in m
    ensures m[k] <= SumMap(m)
  {
    SumRemove(m, k);
  }

  /** A sum splits along any set of keys. */
  lemma {:induction false} SumSplit<K>(m: map<K, nat>, part: set<K>)
    ensures SumMap(m) == SumMap(map k | k in m && k in part :: m[k]) + SumMap(m - part)
    decreases |m|
  {
    var inside := map k | k in m && k in part :: m[k];
    if inside == map[] {
      assert forall k | k in m :: k in part ==> k in inside;
      assert m - part == m;
    } else {
      var k :| k in inside;
      SumRemove(m, k);
      SumSplit(m - {k}, part);
      SumRemove(inside, k);
      assert inside - {k} == map j | j in m - {k} && j in part :: (m - {k})[j];
      assert m - {k} - part == m - part;
    }
  }

  /** A larger map with no smaller values has no smaller sum. */
  lemma {:induction false} SumMonotone<K>(small: map<K, nat>, big: map<K, nat>)
    requires small.Keys <= big.Keys
    requires forall k | k in small :: small[k] <= big[k]
    ensures SumMap(small) <= SumMap(big)
    decreases |small|
  {
    if small != map[] {
      var k :| k in small;
      SumRemove(small, k);
      SumRemove(big, k);
      SumMonotone(small - {k}, big - {k});
    }
  }

  /** Sums of disjoint maps add up. */
  lemma SumUnion<K>(a: map<K, nat>, b: map<K, nat>)
    requires a.Keys !! b.Keys
    ensures SumMap(a + b) == SumMap(a) + SumMap(b)
  {
    SumSplit(a + b, a.Keys);
    assert (map k | k in a + b && k in a.Keys :: (a + b)[k]) == a;
    assert (a + b) - a.Keys == b;
  }
}
