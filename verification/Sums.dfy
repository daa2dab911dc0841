/** Finite totals: the COUNT and SUM(LENGTH(payload)) aggregates over a table. */
module Sums {

  /** The sum of the values of a finite map. */
  ghost function Sum<K>(m: map<K, nat>): nat
    decreases |m|
  {
    if m == map[] then 0
    else
      var k :| k in m;
      m[k] + Sum(m - {k})
  }

  /** The choice of the next key does not matter. */
  lemma {:induction false} SumRemove<K>(m: map<K, nat>, k: K)
    requires k in m
    ensures Sum(m) == m[k] + Sum(m - {k})
    decreases |m|
  {
    var j :| j in m && Sum(m) == m[j] + Sum(m - {j});
    if j != k {
      SumRemove(m - {j}, k);
      SumRemove(m - {k}, j);
      assert m - {j} - {k} == m - {k} - {j};
    }
  }

  /** Splitting the keys splits the sum. */
  lemma {:induction false} SumSplit<K>(m: map<K, nat>, gone: set<K>)
    ensures Sum(m) == Sum(m - gone) + Sum(m - (m.Keys - gone))
    decreases |gone|
  {
    if gone == {} {
      assert m - gone == m;
      assert m - (m.Keys - gone) == map[];
    } else {
      var k :| k in gone;
      var fewer := gone - {k};
      SumSplit(m, fewer);
      if k in m {
        SumRemove(m - fewer, k);
        assert m - fewer - {k} == m - gone;
        SumRemove(m - (m.Keys - gone), k);
        assert m - (m.Keys - gone) - {k} == m - (m.Keys - fewer);
      } else {
        assert m - fewer == m - gone;
        assert m - (m.Keys - fewer) == m - (m.Keys - gone);
      }
    }
  }

  /** Adding one new key adds its value. */
  lemma SumAdd<K>(m: map<K, nat>, k: K, v: nat)
    requires k !in m
    ensures Sum(m[k := v]) == v + Sum(m)
  {
    SumRemove(m[k := v], k);
    assert m[k := v] - {k} == m;
  }

  /** A part is no larger than the whole. */
  lemma SumPart<K>(part: map<K, nat>, whole: map<K, nat>)
    requires forall k :: k in part ==> k in whole && whole[k] == part[k]
    ensures Sum(part) <= Sum(whole)
  {
    SumSplit(whole, part.Keys);
    assert whole - (whole.Keys - part.Keys) == part;
  }
}
