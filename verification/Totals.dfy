/** Sums over finite maps: the total of one column of a table keyed by id. */
module Totals {

  ghost function Total<K(!new)>(m: map<K, nat>): nat
    decreases |m|
  {
    if m == map[] then 0
    else
      var k :| k in m;
      m[k] + Total(m - {k})
  }

  /** The sum does not depend on the order in which rows are visited. */
  lemma {:induction false} TotalSplit<K(!new)>(m: map<K, nat>, k: K)
    requires k in m
    ensures Total(m) == m[k] + Total(m - {k})
    decreases |m|
  {
    var j :| j in m && Total(m) == m[j] + Total(m - {j});
    if j != k {
      TotalSplit(m - {j}, k);
      TotalSplit(m - {k}, j);
      assert m - {j} - {k} == m - {k} - {j};
    }
  }

  /** A table that has fewer rows, each of them no larger, has no larger sum. */
  lemma {:induction false} TotalMonotone<K(!new)>(small: map<K, nat>, large: map<K, nat>)
    requires forall k | k in small :: k in large && small[k] <= large[k]
    ensures Total(small) <= Total(large)
    decreases |large|
  {
    if large == map[] {
      assert small == map[];
    } else {
      var k :| k in large;
      TotalSplit(large, k);
      if k in small {
        TotalSplit(small, k);
      } else {
        assert small - {k} == small;
      }
      TotalMonotone(small - {k}, large - {k});
    }
  }

  /** Writing one row of a table changes its sum by exactly that row. */
  lemma TotalWrite<K(!new)>(m: map<K, nat>, k: K, v: nat)
    ensures Total(m[k := v]) == v + Total(m - {k})
  {
    TotalSplit(m[k := v], k);
    assert m[k := v] - {k} == m - {k};
  }
}
