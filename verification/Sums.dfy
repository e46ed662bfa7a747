/** Sums over sequences and maps of counts, and how they change when one count does. */
module Sums {
  import opened Types

  function Sum(ns: seq<nat>): nat {
    if ns == [] then 0 else Sum(ns[..|ns| - 1]) + ns[|ns| - 1]
  }

  lemma {:induction false} SumUpdate(ns: seq<nat>, i: nat, v: nat)
    requires i < |ns|
    ensures Sum(ns[i := v]) + ns[i] == Sum(ns) + v
  {
    var n := |ns| - 1;
    if i < n {
      SumUpdate(ns[..n], i, v);
      assert ns[i := v][..n] == ns[..n][i := v];
    } else {
      assert ns[i := v][..n] == ns[..n];
    }
  }

  lemma SumSnoc(ns: seq<nat>, v: nat)
    ensures Sum(ns + [v]) == Sum(ns) + v
  {
    assert (ns + [v])[..|ns|] == ns;
  }

  lemma {:induction false} SumZero(ns: seq<nat>)
    requires forall i :: 0 <= i < |ns| ==> ns[i] == 0
    ensures Sum(ns) == 0
  {
    if ns != [] {
      SumZero(ns[..|ns| - 1]);
    }
  }

  ghost function MapSum(m: map<Id, nat>): nat
    decreases |m|
  {
    if m == map[] then 0
    else
      var k :| k in m;
      SmallerWithout(m, k);
      m[k] + MapSum(m - {k})
  }

  lemma SmallerWithout(m: map<Id, nat>, k: Id)
    requires k in m
    ensures |m - {k}| < |m|
  {
    assert (m - {k}).Keys == m.Keys - {k};
    assert |m - {k}| == |(m - {k}).Keys| && |m| == |m.Keys|;
  }

  /** Whichever key is taken out first, the sum is the same. */
  lemma {:induction false} MapSumAt(m: map<Id, nat>, k: Id)
    requires k in m
    ensures MapSum(m) == m[k] + MapSum(m - {k})
    decreases |m|
  {
    var j :| j in m && MapSum(m) == m[j] + MapSum(m - {j});
    if j != k {
      SmallerWithout(m, j);
      SmallerWithout(m, k);
      MapSumAt(m - {j}, k);
      MapSumAt(m - {k}, j);
      assert m - {j} - {k} == m - {k} - {j};
    }
  }

  lemma MapSumUpdate(m: map<Id, nat>, k: Id, v: nat)
    requires k in m
    ensures MapSum(m[k := v]) + m[k] == MapSum(m) + v
  {
    MapSumAt(m, k);
    MapSumAt(m[k := v], k);
    assert m[k := v] - {k} == m - {k};
  }

  function Count(holds: bool): nat {
    if holds then 1 else 0
  }
}
