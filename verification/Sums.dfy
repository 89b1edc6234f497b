/** Finite sums over a table of integers, as SQL's SUM over a set of rows. */
module Sums {
  ghost function Sum(m: map<nat, int>): int
    decreases |m|
  {
    if m == map[] then 0
    else
      var k :| k in m;
      m[k] + Sum(m - {k})
  }

  /** The sum does not depend on the order in which the rows are visited. */
  lemma {:induction false} SumRemove(m: map<nat, int>, k: nat)
    requires k in m
    ensures Sum(m) == m[k] + Sum(m - {k})
    decreases |m|
  {
    var j :| j in m && Sum(m) == m[j] + Sum(m - {j});
    if j != k {
      SumRemove(m - {j}, k);
      SumRemove(m - {k}, j);
      assert m - {j} - {k} == m - {k} - {j};
    }
  }

  /** Changing or adding one row moves the sum by that row alone. */
  lemma SumUpdate(m: map<nat, int>, m1: map<nat, int>, k: nat)
    requires m1.Keys == m.Keys + {k}
    requires forall j | j in m && j != k :: m1[j] == m[j]
    ensures Sum(m1) == Sum(m) - (if k in m then m[k] else 0) + m1[k]
  {
    SumRemove(m1, k);
    if k in m {
      SumRemove(m, k);
      assert m1 - {k} == m - {k};
    } else {
      assert m1 - {k} == m;
    }
  }

  lemma {:induction false} SumAtLeast(m: map<nat, int>, k: nat)
    requires k in m && forall j | j in m :: m[j] >= 0
    ensures Sum(m) >= m[k]
    decreases |m|
  {
    SumRemove(m, k);
    if m - {k} != map[] {
      var j :| j in m - {k};
      SumAtLeast(m - {k}, j);
    }
  }

  lemma {:induction false} SumZero(m: map<nat, int>)
    requires forall j | j in m :: m[j] == 0
    ensures Sum(m) == 0
    decreases |m|
  {
    if m != map[] {
      var k :| k in m;
      SumRemove(m, k);
      SumZero(m - {k});
    }
  }
}
