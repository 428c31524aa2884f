/**
  Sums of budgets: the fieldwise total of the values of a map keyed by node
  handle (the fold over a `HashMap`'s values in the source, in no particular
  order), and of the budgets carried by a batch of tagged budgets.
 */
module BudgetSums {
  import opened Budgets

  /** The fieldwise sum of all values of `m`; the order of summation does not matter (`SumRemove`). */
  ghost function Sum(m: map<NodeHdl, Budget>): (r: Budget)
    ensures forall k :: k in m ==> LessEq(m[k], r)
    decreases |m|
  {
    if m == map[] then Zero()
    else
      var k :| k in m;
      assert forall j :: j in m && j != k ==> j in m - {k} && (m - {k})[j] == m[j];
      Add(m[k], Sum(m - {k}))
  }

  lemma MapRemoveCard(m: map<NodeHdl, Budget>, k: NodeHdl)
    requires k in m
    ensures |m - {k}| == |m| - 1
  {
    assert (m - {k}).Keys == m.Keys - {k};
  }

  /** Any single entry can be split off the sum. */
  lemma {:induction false} SumRemove(m: map<NodeHdl, Budget>, k: NodeHdl)
    requires k in m
    ensures Sum(m) == Add(m[k], Sum(m - {k}))
    decreases |m|
  {
    var j :| j in m && Sum(m) == Add(m[j], Sum(m - {j}));
    if j != k {
      MapRemoveCard(m, j);
      MapRemoveCard(m, k);
      SumRemove(m - {j}, k);
      SumRemove(m - {k}, j);
      assert (m - {j}) - {k} == (m - {k}) - {j};
      AddAssociates(m[j], m[k], Sum(m - {j} - {k}));
      AddAssociates(m[k], m[j], Sum(m - {j} - {k}));
      AddCommutes(m[j], m[k]);
    }
  }

  /** Replacing the value at `k` by `v` swaps `m[k]` for `v` in the sum. */
  lemma SumSet(m: map<NodeHdl, Budget>, k: NodeHdl, v: Budget)
    requires k in m
    ensures Add(Sum(m[k := v]), m[k]) == Add(Sum(m), v)
  {
    SumRemove(m, k);
    SumRemove(m[k := v], k);
    assert m[k := v] - {k} == m - {k};
  }

  /** Adding `b` to one entry adds `b` to the sum. */
  lemma SumAddAt(m: map<NodeHdl, Budget>, k: NodeHdl, b: Budget)
    requires k in m
    ensures Sum(m[k := Add(m[k], b)]) == Add(Sum(m), b)
  {
    SumSet(m, k, Add(m[k], b));
    AddCancels(Sum(m[k := Add(m[k], b)]), Add(Sum(m), b), m[k]);
  }

  /** A map whose every value is `v` sums to `v` times its size. */
  lemma {:induction false} SumConst(m: map<NodeHdl, Budget>, v: Budget)
    requires forall k :: k in m ==> m[k] == v
    ensures Sum(m) == Scale(v, |m|)
    decreases |m|
  {
    if m == map[] {
      ScaleStep(v, 0);
    } else {
      var k :| k in m;
      SumRemove(m, k);
      MapRemoveCard(m, k);
      SumConst(m - {k}, v);
      ScaleStep(v, |m| - 1);
      AddCommutes(v, Scale(v, |m| - 1));
    }
  }

  /** The sum of pointwise sums is the sum of the two sums. */
  lemma {:induction false} SumPointwise(a: map<NodeHdl, Budget>, b: map<NodeHdl, Budget>, c: map<NodeHdl, Budget>)
    requires a.Keys == b.Keys == c.Keys
    requires forall k :: k in c ==> c[k] == Add(a[k], b[k])
    ensures Sum(c) == Add(Sum(a), Sum(b))
    decreases |c|
  {
    if c == map[] {
      assert a == map[] && b == map[];
      assert Sum(a) == Zero() && Sum(b) == Zero() && Sum(c) == Zero();
      AddZero(Zero());
    } else {
      var k :| k in c;
      SumRemove(a, k);
      SumRemove(b, k);
      SumRemove(c, k);
      MapRemoveCard(c, k);
      SumPointwise(a - {k}, b - {k}, c - {k});
      var sa, sb := Sum(a - {k}), Sum(b - {k});
      calc {
        Sum(c);
        Add(Add(a[k], b[k]), Add(sa, sb));
        { AddAssociates(a[k], b[k], Add(sa, sb));
          AddAssociates(b[k], sa, sb);
          AddCommutes(b[k], sa);
          AddAssociates(sa, b[k], sb);
          AddAssociates(a[k], sa, Add(b[k], sb)); }
        Add(Add(a[k], sa), Add(b[k], sb));
      }
    }
  }

  /** Sums are monotone under the fieldwise order. */
  lemma {:induction false} SumMonotone(a: map<NodeHdl, Budget>, b: map<NodeHdl, Budget>)
    requires a.Keys == b.Keys
    requires forall k :: k in a ==> LessEq(a[k], b[k])
    ensures LessEq(Sum(a), Sum(b))
    decreases |a|
  {
    if a != map[] {
      var k :| k in a;
      SumRemove(a, k);
      SumRemove(b, k);
      MapRemoveCard(a, k);
      SumMonotone(a - {k}, b - {k});
    } else {
      assert b == map[];
    }
  }

  /** Sums are strictly monotone: raising any entry changes the sum. */
  lemma SumStrict(a: map<NodeHdl, Budget>, b: map<NodeHdl, Budget>)
    requires a.Keys == b.Keys
    requires forall k :: k in a ==> LessEq(a[k], b[k])
    requires a != b
    ensures Sum(a) != Sum(b)
  {
    var k :| k in a && a[k] != b[k];
    SumRemove(a, k);
    SumRemove(b, k);
    SumMonotone(a - {k}, b - {k});
  }

  /** The fieldwise sum of the budgets a batch carries, whatever their tags; no entry exceeds it. */
  function BatchTotal(batch: seq<LobeBudget>): (r: Budget)
    ensures forall i :: 0 <= i < |batch| ==> LessEq(batch[i].budget, r)
  {
    if batch == [] then Zero()
    else
      var init := batch[..|batch| - 1];
      assert forall i :: 0 <= i < |init| ==> init[i] == batch[i];
      Add(BatchTotal(init), batch[|batch| - 1].budget)
  }

  /** A batch whose every entry carries `q` totals `q` times its length. */
  lemma {:induction false} ConstBatchTotal(batch: seq<LobeBudget>, q: Budget)
    requires forall i :: 0 <= i < |batch| ==> batch[i].budget == q
    ensures BatchTotal(batch) == Scale(q, |batch|)
  {
    ScaleStep(q, 0);
    if batch != [] {
      var init := batch[..|batch| - 1];
      assert forall i :: 0 <= i < |init| ==> init[i] == batch[i];
      ConstBatchTotal(init, q);
      ScaleStep(q, |init|);
    }
  }
}
