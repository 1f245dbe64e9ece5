/** Sums over maps. */
module Sums {
  ghost function Sum<K>(m: map<K, nat>): nat {
    if m == map[] then 0
    else var k :| k in m; m[k] + Sum(m - {k})
  }

  lemma {:induction false} SumSplit<K>(m: map<K, nat>, k: K)
    requires k in m
    ensures Sum(m) == m[k] + Sum(m - {k})
    decreases |m|
  {
    var j :| j in m && Sum(m) == m[j] + Sum(m - {j});
    if j != k {
      var mj, mk := m - {j}, m - {k};
      SumSplit(mj, k);
      assert |mk| < |m| by { assert mk.Keys == m.Keys - {k}; }
      SumSplit(mk, j);
      assert mj - {k} == mk - {j};
    }
  }

  lemma SumUpdate<K>(m: map<K, nat>, k: K, v: nat)
    ensures Sum(m[k := v]) == Sum(m) + v - (if k in m then m[k] else 0)
  {
    var m' := m[k := v];
    SumSplit(m', k);
    assert m' - {k} == m - {k};
    if k in m { SumSplit(m, k); } else { assert m - {k} == m; }
  }

  lemma Distribute(b: nat, n: nat)
    ensures b * (n + 1) == b * n + b
  {}

  lemma {:induction false} SumBound<K>(m: map<K, nat>, bound: nat)
    requires forall k <- m :: m[k] <= bound
    ensures Sum(m) <= bound * |m|
    decreases |m|
  {
    if m != map[] {
      var k :| k in m;
      var rest := m - {k};
      SumSplit(m, k);
      assert rest.Keys == m.Keys - {k};
      SumBound(rest, bound);
      Distribute(bound, |rest|);
    }
  }
}
