/**
  `EvenSplitLedgerLobe`, the stateful allocator. It divides the cumulative
  claim `total_spent + pool` evenly over its consumers, gives each consumer
  what it is still owed of its share (saturating at zero per field), hands
  the floor-division remainder to one consumer, and on the feedback pass
  folds each consumer's reported spend into its ledger.
 */
module Ledger {
  import opened Wrappers
  import opened Budgets
  import opened BudgetSums

  datatype LedgerError = IncompleteFeedback

  // ---------------------------------------------------------------------
  // The forward pass, as a function of the ledger state before it.
  // ---------------------------------------------------------------------

  /** The cumulative claim of this cycle: everything spent so far plus the new pool. */
  function GrandTotal(totalSpent: Budget, input: LobeBudget): (r: Budget)
    ensures LessEq(input.budget, r) && Sub(r, input.budget) == totalSpent
  {
    Add(totalSpent, input.budget)
  }

  /** What floor division of `total` over `n` consumers leaves over: less than `n` per field. */
  function Remainder(total: Budget, n: nat): (r: Budget)
    requires n > 0
    ensures AllBelow(r, n)
    ensures Add(Scale(Div(total, n), n), r) == total
  {
    Sub(total, Scale(Div(total, n), n))
  }

  /**
    The allotment map after a forward pass. On a zero input every entry is
    zero. Otherwise every consumer `c` is owed `split - spenders[c]`
    (saturating per field), where `split` is the grand total divided by the
    number of consumers, and `recipient` also receives the remainder.
   */
  function Allotments(totalSpent: Budget, input: LobeBudget,
                      spenders: map<NodeHdl, Budget>, recipient: NodeHdl): (r: map<NodeHdl, Budget>)
    requires !IsZero(input) ==> recipient in spenders
    ensures r.Keys == spenders.Keys
  {
    if IsZero(input) then
      map c | c in spenders :: Zero()
    else
      var total := GrandTotal(totalSpent, input);
      var split := Div(total, |spenders|);
      map c | c in spenders ::
        if c == recipient then Add(ClampSub(split, spenders[c]), Remainder(total, |spenders|))
        else ClampSub(split, spenders[c])
  }

  /** On a nonzero pool: the clamped split for everyone, plus the remainder at the recipient. */
  lemma AllotmentsOnPool(totalSpent: Budget, input: LobeBudget,
                         spenders: map<NodeHdl, Budget>, recipient: NodeHdl)
    requires !IsZero(input) && recipient in spenders
    ensures var total := GrandTotal(totalSpent, input);
            var split := Div(total, |spenders|);
            var clamped := map c | c in spenders :: ClampSub(split, spenders[c]);
            Allotments(totalSpent, input, spenders, recipient)
              == clamped[recipient := Add(clamped[recipient], Remainder(total, |spenders|))]
  {
  }

  /** A zero pool zeroes every allotment, whatever was spent before. */
  lemma ZeroInputAllotsNothing(totalSpent: Budget, input: LobeBudget,
                               spenders: map<NodeHdl, Budget>, recipient: NodeHdl)
    requires IsZero(input)
    ensures forall c :: c in spenders ==> Allotments(totalSpent, input, spenders, recipient)[c] == Zero()
  {
  }

  /**
    On a nonzero pool, every consumer other than the recipient is topped up
    to the fair split and no further: its allotment plus its cumulative
    spend is the fieldwise maximum of the split and that spend, and the
    allotment never exceeds the split.
   */
  lemma AllotmentTopsUpToSplit(totalSpent: Budget, input: LobeBudget,
                               spenders: map<NodeHdl, Budget>, recipient: NodeHdl, c: NodeHdl)
    requires !IsZero(input) && recipient in spenders
    requires c in spenders && c != recipient
    ensures var split := Div(GrandTotal(totalSpent, input), |spenders|);
            var r := Allotments(totalSpent, input, spenders, recipient);
            Add(r[c], spenders[c]) == Max(split, spenders[c]) && LessEq(r[c], split)
  {
  }

  /**
    The recipient gets the same top-up plus the whole remainder, and the
    remainder is exactly what the split misses of the grand total, less
    than the number of consumers in each field.
   */
  lemma RecipientGetsRemainder(totalSpent: Budget, input: LobeBudget,
                               spenders: map<NodeHdl, Budget>, recipient: NodeHdl)
    requires !IsZero(input) && recipient in spenders
    ensures var total := GrandTotal(totalSpent, input);
            var n := |spenders|;
            var split := Div(total, n);
            var rem := Remainder(total, n);
            var r := Allotments(totalSpent, input, spenders, recipient);
            Add(r[recipient], spenders[recipient]) == Add(Max(split, spenders[recipient]), rem)
  {
    var total := GrandTotal(totalSpent, input);
    var n := |spenders|;
    var split := Div(total, n);
    var rem := Remainder(total, n);
    var c := ClampSub(split, spenders[recipient]);
    AddAssociates(c, rem, spenders[recipient]);
    AddCommutes(rem, spenders[recipient]);
    AddAssociates(c, spenders[recipient], rem);
  }

  /** No allotment exceeds the grand total, so none can overflow where the grand total fits. */
  lemma AllotmentWithinGrandTotal(totalSpent: Budget, input: LobeBudget,
                                  spenders: map<NodeHdl, Budget>, recipient: NodeHdl, c: NodeHdl)
    requires !IsZero(input) ==> recipient in spenders
    requires c in spenders
    ensures LessEq(Allotments(totalSpent, input, spenders, recipient)[c], GrandTotal(totalSpent, input))
    ensures FitsU32(GrandTotal(totalSpent, input)) ==> FitsU32(Allotments(totalSpent, input, spenders, recipient)[c])
  {
    if !IsZero(input) {
      var total := GrandTotal(totalSpent, input);
      var n := |spenders|;
      var split := Div(total, n);
      ScaleStep(split, n - 1);
    }
  }

  /** The map that gives every consumer the split and the recipient the split plus the remainder. */
  lemma {:induction false} EvenShareSum(u: map<NodeHdl, Budget>, recipient: NodeHdl, split: Budget, rem: Budget)
    requires recipient in u
    requires forall c :: c in u && c != recipient ==> u[c] == split
    requires u[recipient] == Add(split, rem)
    ensures Sum(u) == Add(Scale(split, |u|), rem)
  {
    SumRemove(u, recipient);
    MapRemoveCard(u, recipient);
    SumConst(u - {recipient}, split);
    ScaleStep(split, |u| - 1);
    AddAssociates(split, rem, Scale(split, |u| - 1));
    AddCommutes(rem, Scale(split, |u| - 1));
    AddAssociates(split, Scale(split, |u| - 1), rem);
    AddCommutes(split, Scale(split, |u| - 1));
  }

  /**
    The summation behind `ToppedUpSum`, over any allotment map `r` that tops
    every consumer up to `split`, plus `rem` for the recipient.
   */
  lemma ToppedUpMapSum(r: map<NodeHdl, Budget>, spenders: map<NodeHdl, Budget>,
                       recipient: NodeHdl, split: Budget, rem: Budget)
    requires r.Keys == spenders.Keys && recipient in spenders
    requires forall c :: c in spenders && c != recipient ==> Add(r[c], spenders[c]) == Max(split, spenders[c])
    requires Add(r[recipient], spenders[recipient]) == Add(Max(split, spenders[recipient]), rem)
    ensures LessEq(Add(Scale(split, |spenders|), rem), Add(Sum(r), Sum(spenders)))
    ensures Add(Scale(split, |spenders|), rem) == Add(Sum(r), Sum(spenders))
            <==> forall c :: c in spenders ==> LessEq(spenders[c], split)
  {
    var t := map c | c in spenders :: Add(r[c], spenders[c]);
    var u := map c | c in spenders :: if c == recipient then Add(split, rem) else split;
    SharesBelowTopUps(r, spenders, t, u, recipient, split, rem);
    SumsOfShares(r, spenders, t, u, recipient, split, rem);
    SumMonotone(u, t);
    assert LessEq(Add(Scale(split, |spenders|), rem), Add(Sum(r), Sum(spenders)));
    if u != t {
      SumStrict(u, t);
    }
  }

  /**
    Pointwise, the even shares are below the topped-up spends, and the two
    maps are equal exactly when nobody overspent.
   */
  lemma SharesBelowTopUps(r: map<NodeHdl, Budget>, spenders: map<NodeHdl, Budget>,
                          t: map<NodeHdl, Budget>, u: map<NodeHdl, Budget>,
                          recipient: NodeHdl, split: Budget, rem: Budget)
    requires r.Keys == spenders.Keys == t.Keys == u.Keys && recipient in u
    requires forall c :: c in spenders && c != recipient ==> Add(r[c], spenders[c]) == Max(split, spenders[c])
    requires Add(r[recipient], spenders[recipient]) == Add(Max(split, spenders[recipient]), rem)
    requires forall c :: c in t ==> t[c] == Add(r[c], spenders[c])
    requires forall c :: c in u && c != recipient ==> u[c] == split
    requires u[recipient] == Add(split, rem)
    ensures forall c :: c in u ==> LessEq(u[c], t[c])
    ensures u == t <==> forall c :: c in spenders ==> LessEq(spenders[c], split)
  {
    forall c | c in u
      ensures LessEq(u[c], t[c])
      ensures u[c] == t[c] <==> LessEq(spenders[c], split)
    {
      if c == recipient {
        assert t[c] == Add(Max(split, spenders[c]), rem);
        if u[c] == t[c] {
          AddCancels(split, Max(split, spenders[c]), rem);
        }
      } else {
        assert t[c] == Max(split, spenders[c]);
      }
    }
  }

  /** The sums of the two maps `ToppedUpMapSum` compares. */
  lemma SumsOfShares(r: map<NodeHdl, Budget>, spenders: map<NodeHdl, Budget>,
                     t: map<NodeHdl, Budget>, u: map<NodeHdl, Budget>,
                     recipient: NodeHdl, split: Budget, rem: Budget)
    requires r.Keys == spenders.Keys == t.Keys == u.Keys && recipient in u
    requires forall c :: c in t ==> t[c] == Add(r[c], spenders[c])
    requires forall c :: c in u && c != recipient ==> u[c] == split
    requires u[recipient] == Add(split, rem)
    ensures Sum(t) == Add(Sum(r), Sum(spenders))
    ensures Sum(u) == Add(Scale(split, |spenders|), rem)
  {
    assert |u| == |spenders| by { assert u.Keys == spenders.Keys; }
    SumPointwise(r, spenders, t);
    EvenShareSum(u, recipient, split, rem);
  }

  /**
    Every consumer's allotment plus its cumulative spend, summed over all
    consumers, is at least the grand total; it is exactly the grand total
    if and only if no consumer has spent beyond the split in any field.
   */
  lemma ToppedUpSum(totalSpent: Budget, input: LobeBudget,
                    spenders: map<NodeHdl, Budget>, recipient: NodeHdl)
    requires !IsZero(input) && recipient in spenders
    ensures var total := GrandTotal(totalSpent, input);
            var split := Div(total, |spenders|);
            var r := Allotments(totalSpent, input, spenders, recipient);
            LessEq(total, Add(Sum(r), Sum(spenders)))
            && (total == Add(Sum(r), Sum(spenders)) <==> forall c :: c in spenders ==> LessEq(spenders[c], split))
  {
    var total := GrandTotal(totalSpent, input);
    var n := |spenders|;
    var split := Div(total, n);
    var rem := Remainder(total, n);
    var r := Allotments(totalSpent, input, spenders, recipient);
    forall c | c in spenders && c != recipient
      ensures Add(r[c], spenders[c]) == Max(split, spenders[c])
    {
      AllotmentTopsUpToSplit(totalSpent, input, spenders, recipient, c);
    }
    RecipientGetsRemainder(totalSpent, input, spenders, recipient);
    ToppedUpMapSum(r, spenders, recipient, split, rem);
  }

  /**
    With the ledger balanced (its running total equal to the sum of the
    consumers' cumulative spends), the allotments of a cycle always cover
    the new pool, and add up to exactly the pool if and only if no consumer
    has spent beyond the split: a consumer that overspent is clamped to
    zero while the others are still topped up, so the ledger over-allots.
   */
  lemma AllotmentsCoverPool(totalSpent: Budget, input: LobeBudget,
                            spenders: map<NodeHdl, Budget>, recipient: NodeHdl)
    requires !IsZero(input) && recipient in spenders
    requires totalSpent == Sum(spenders)
    ensures var split := Div(GrandTotal(totalSpent, input), |spenders|);
            var r := Allotments(totalSpent, input, spenders, recipient);
            LessEq(input.budget, Sum(r))
            && (Sum(r) == input.budget <==> forall c :: c in spenders ==> LessEq(spenders[c], split))
  {
    var split := Div(GrandTotal(totalSpent, input), |spenders|);
    var r := Allotments(totalSpent, input, spenders, recipient);
    ToppedUpSum(totalSpent, input, spenders, recipient);
    AddCommutes(totalSpent, input.budget);
    if Add(Sum(r), Sum(spenders)) == GrandTotal(totalSpent, input) {
      AddCancels(input.budget, Sum(r), totalSpent);
    }
  }

  /**
    An even history splits a divisible pool evenly. When every consumer has
    spent the same `s`, the running total is `s` per consumer, and the pool
    is `q` per consumer, then every consumer is allotted exactly `q`: the
    split is `s + q`, every top-up is `q`, and the remainder is zero.
   */
  lemma EvenHistoryEvenAllotments(totalSpent: Budget, input: LobeBudget,
                                  spenders: map<NodeHdl, Budget>, recipient: NodeHdl, s: Budget, q: Budget)
    requires recipient in spenders
    requires forall c :: c in spenders ==> spenders[c] == s
    requires totalSpent == Scale(s, |spenders|)
    requires input.budget == Scale(q, |spenders|)
    ensures forall c :: c in spenders ==> Allotments(totalSpent, input, spenders, recipient)[c] == q
  {
    var n := |spenders|;
    var r := Allotments(totalSpent, input, spenders, recipient);
    var total := GrandTotal(totalSpent, input);
    ScaleAdd(s, q, n);
    if IsZero(input) {
      assert q == Zero();
    } else {
      var split := Add(s, q);
      assert AllBelow(Sub(total, Scale(split, n)), n);
      DivUnique(total, n, split);
      forall c | c in spenders
        ensures r[c] == q
      {
        assert ClampSub(split, s) == q;
        AddZero(q);
      }
    }
  }

  // ---------------------------------------------------------------------
  // The feedback pass, as functions of the ledger state before it.
  // ---------------------------------------------------------------------

  /** Every entry of the batch names a consumer the ledger knows. */
  predicate KnownLobes(batch: seq<LobeBudget>, m: map<NodeHdl, Budget>) {
    forall i :: 0 <= i < |batch| ==> batch[i].lobe in m
  }

  /** The cumulative spends after folding in the batch, entry by entry, in order. */
  function AccumulateSpend(spenders: map<NodeHdl, Budget>, batch: seq<LobeBudget>): (r: map<NodeHdl, Budget>)
    requires KnownLobes(batch, spenders)
    ensures r.Keys == spenders.Keys
  {
    if batch == [] then spenders
    else
      var prev := AccumulateSpend(spenders, batch[..|batch| - 1]);
      var last := batch[|batch| - 1];
      prev[last.lobe := Add(prev[last.lobe], last.budget)]
  }

  /** The last-spent map after the batch overwrites it, entry by entry, in order. */
  function RecordSpend(spent: map<NodeHdl, Budget>, batch: seq<LobeBudget>): (r: map<NodeHdl, Budget>)
    requires KnownLobes(batch, spent)
    ensures r.Keys == spent.Keys
  {
    if batch == [] then spent
    else
      var prev := RecordSpend(spent, batch[..|batch| - 1]);
      var last := batch[|batch| - 1];
      prev[last.lobe := last.budget]
  }

  /** Folding a batch into the cumulative spends raises their sum by exactly the batch's total. */
  lemma {:induction false} AccumulateSpendSum(spenders: map<NodeHdl, Budget>, batch: seq<LobeBudget>)
    requires KnownLobes(batch, spenders)
    ensures Sum(AccumulateSpend(spenders, batch)) == Add(Sum(spenders), BatchTotal(batch))
  {
    if batch != [] {
      var init := batch[..|batch| - 1];
      var last := batch[|batch| - 1];
      assert KnownLobes(init, spenders) by {
        forall i | 0 <= i < |init| ensures init[i].lobe in spenders {
          assert init[i] == batch[i];
        }
      }
      AccumulateSpendSum(spenders, init);
      var prev := AccumulateSpend(spenders, init);
      assert AccumulateSpend(spenders, batch) == prev[last.lobe := Add(prev[last.lobe], last.budget)];
      SumAddAt(prev, last.lobe, last.budget);
      assert BatchTotal(batch) == Add(BatchTotal(init), last.budget);
      AddAssociates(Sum(spenders), BatchTotal(init), last.budget);
    } else {
      AddZero(Sum(spenders));
    }
  }

  /** A consumer's last entry in the batch is what the last-spent map records for it. */
  lemma {:induction false} RecordSpendLast(spent: map<NodeHdl, Budget>, batch: seq<LobeBudget>, i: nat)
    requires KnownLobes(batch, spent)
    requires i < |batch|
    requires forall j :: i < j < |batch| ==> batch[j].lobe != batch[i].lobe
    ensures RecordSpend(spent, batch)[batch[i].lobe] == batch[i].budget
  {
    if i < |batch| - 1 {
      var init := batch[..|batch| - 1];
      RecordSpendLast(spent, init, i);
    }
  }

  /** A consumer that does not appear in the batch keeps its last-spent entry. */
  lemma {:induction false} RecordSpendUntouched(spent: map<NodeHdl, Budget>, batch: seq<LobeBudget>, k: NodeHdl)
    requires KnownLobes(batch, spent)
    requires k in spent
    requires forall i :: 0 <= i < |batch| ==> batch[i].lobe != k
    ensures RecordSpend(spent, batch)[k] == spent[k]
  {
    if batch != [] {
      RecordSpendUntouched(spent, batch[..|batch| - 1], k);
    }
  }

  /** A consumer that does not appear in the batch keeps its cumulative spend. */
  lemma {:induction false} AccumulateSpendUntouched(spenders: map<NodeHdl, Budget>, batch: seq<LobeBudget>, k: NodeHdl)
    requires KnownLobes(batch, spenders)
    requires k in spenders
    requires forall i :: 0 <= i < |batch| ==> batch[i].lobe != k
    ensures AccumulateSpend(spenders, batch)[k] == spenders[k]
  {
    if batch != [] {
      AccumulateSpendUntouched(spenders, batch[..|batch| - 1], k);
    }
  }

  /** A consumer that appears exactly once in the batch has that entry added to its cumulative spend. */
  lemma {:induction false} AccumulateSpendOnce(spenders: map<NodeHdl, Budget>, batch: seq<LobeBudget>, i: nat)
    requires KnownLobes(batch, spenders)
    requires i < |batch|
    requires forall j :: 0 <= j < |batch| && j != i ==> batch[j].lobe != batch[i].lobe
    ensures AccumulateSpend(spenders, batch)[batch[i].lobe] == Add(spenders[batch[i].lobe], batch[i].budget)
  {
    var init := batch[..|batch| - 1];
    assert KnownLobes(init, spenders) by {
      forall j | 0 <= j < |init| ensures init[j].lobe in spenders {
        assert init[j] == batch[j];
      }
    }
    if i == |batch| - 1 {
      AccumulateSpendUntouched(spenders, init, batch[i].lobe);
    } else {
      assert init[i] == batch[i];
      AccumulateSpendOnce(spenders, init, i);
    }
  }

  /** The batch holds exactly one entry for every consumer of `m`, and no other. */
  predicate OneEntryEach(batch: seq<LobeBudget>, m: map<NodeHdl, Budget>) {
    KnownLobes(batch, m)
    && (forall i, j :: 0 <= i < j < |batch| ==> batch[i].lobe != batch[j].lobe)
    && (forall c :: c in m ==> exists i :: 0 <= i < |batch| && batch[i].lobe == c)
  }

  /**
    Feedback on an even history: when every consumer has spent `s`, the
    running total is `s` per consumer, and every consumer reports spending
    `q`, one entry each, then every cumulative spend becomes `s + q` and the
    running total `s + q` per consumer.
   */
  lemma EvenFeedbackStaysEven(totalSpent: Budget, spenders: map<NodeHdl, Budget>, s: Budget, q: Budget,
                              batch: seq<LobeBudget>)
    requires forall c :: c in spenders ==> spenders[c] == s
    requires totalSpent == Scale(s, |spenders|)
    requires OneEntryEach(batch, spenders) && |batch| == |spenders|
    requires forall i :: 0 <= i < |batch| ==> batch[i].budget == q
    ensures AccumulateSpend(spenders, batch) == map c | c in spenders :: Add(s, q)
    ensures Add(totalSpent, BatchTotal(batch)) == Scale(Add(s, q), |spenders|)
  {
    EvenSpendsStayEven(spenders, s, q, batch);
    ConstBatchTotal(batch, q);
    ScaleAdd(s, q, |spenders|);
  }

  /** The per-consumer half of `EvenFeedbackStaysEven`. */
  lemma EvenSpendsStayEven(spenders: map<NodeHdl, Budget>, s: Budget, q: Budget, batch: seq<LobeBudget>)
    requires forall c :: c in spenders ==> spenders[c] == s
    requires OneEntryEach(batch, spenders)
    requires forall i :: 0 <= i < |batch| ==> batch[i].budget == q
    ensures forall c :: c in spenders ==> AccumulateSpend(spenders, batch)[c] == Add(s, q)
  {
    forall c | c in spenders
      ensures AccumulateSpend(spenders, batch)[c] == Add(s, q)
    {
      var i :| 0 <= i < |batch| && batch[i].lobe == c;
      AccumulateSpendOnce(spenders, batch, i);
    }
  }

  /**
    The steady state of an even history. Starting from an even history and
    a divisible pool as in `EvenHistoryEvenAllotments`, if every consumer
    then reports spending exactly its allotment, one entry each, the feedback
    pass leaves every cumulative spend at `s + q` and the running total at
    `s + q` per consumer: the same shape again, so every later divisible
    pool is split evenly as well.
   */
  lemma EvenHistoryIsSteady(totalSpent: Budget, input: LobeBudget,
                            spenders: map<NodeHdl, Budget>, recipient: NodeHdl, s: Budget, q: Budget,
                            batch: seq<LobeBudget>)
    requires recipient in spenders
    requires forall c :: c in spenders ==> spenders[c] == s
    requires totalSpent == Scale(s, |spenders|)
    requires input.budget == Scale(q, |spenders|)
    requires OneEntryEach(batch, spenders) && |batch| == |spenders|
    requires forall i :: 0 <= i < |batch| ==>
               batch[i].budget == Allotments(totalSpent, input, spenders, recipient)[batch[i].lobe]
    ensures AccumulateSpend(spenders, batch) == map c | c in spenders :: Add(s, q)
    ensures Add(totalSpent, BatchTotal(batch)) == Scale(Add(s, q), |spenders|)
  {
    EvenHistoryEvenAllotments(totalSpent, input, spenders, recipient, s, q);
    EvenFeedbackStaysEven(totalSpent, spenders, s, q, batch);
  }

  // ---------------------------------------------------------------------
  // The lobe.
  // ---------------------------------------------------------------------

  class EvenSplitLedgerLobe {
    var hdl: Option<NodeHdl>
    var totalSpent: Budget
    /** What each consumer is allotted in the current cycle. */
    var allotted: map<NodeHdl, Budget>
    /** What each consumer has reported spending, cumulatively. */
    var spenders: map<NodeHdl, Budget>
    /** What each consumer reported spending on the last feedback pass. */
    var spent: map<NodeHdl, Budget>

    /** The three maps always have the same consumers as keys. */
    ghost predicate Valid()
      reads this
    {
      allotted.Keys == spenders.Keys && spent.Keys == spenders.Keys
    }

    /** The running total is the sum of the consumers' cumulative spends. */
    ghost predicate Balanced()
      reads this
    {
      totalSpent == Sum(spenders)
    }

    constructor ()
      ensures Valid() && Balanced()
      ensures hdl == None && totalSpent == Zero()
      ensures allotted == map[] && spenders == map[] && spent == map[]
    {
      hdl := None;
      totalSpent := Zero();
      allotted, spenders, spent := map[], map[], map[];
    }

    /**
      Registers the consumers: each of the three maps is rebuilt with
      exactly the output handles as keys, all mapped to zero. The running
      total is kept, so the ledger is balanced afterwards only if nothing
      had been spent before.
     */
    method Start(h: NodeHdl, inputs: seq<NodeHdl>, outputs: seq<NodeHdl>)
      modifies this
      ensures Valid()
      ensures hdl == Some(h) && totalSpent == old(totalSpent)
      ensures spenders.Keys == set o | o in outputs
      ensures forall c :: c in spenders ==> spenders[c] == Zero() && allotted[c] == Zero() && spent[c] == Zero()
      ensures Balanced() <==> totalSpent == Zero()
    {
      hdl := Some(h);
      spenders, allotted, spent := map[], map[], map[];
      for i := 0 to |outputs|
        invariant spenders.Keys == set o | o in outputs[..i]
        invariant allotted.Keys == spenders.Keys && spent.Keys == spenders.Keys
        invariant forall c :: c in spenders ==> spenders[c] == Zero() && allotted[c] == Zero() && spent[c] == Zero()
        invariant hdl == Some(h) && totalSpent == old(totalSpent)
      {
        assert outputs[..i + 1] == outputs[..i] + [outputs[i]];
        spenders := spenders[outputs[i] := Zero()];
        allotted := allotted[outputs[i] := Zero()];
        spent := spent[outputs[i] := Zero()];
      }
      assert outputs[..|outputs|] == outputs;
      SumConst(spenders, Zero());
    }

    /**
      The forward pass. `recipient` is the consumer that receives the
      remainder; the source picks it at random.
     */
    method Update(input: LobeBudget, recipient: NodeHdl)
      requires Valid()
      requires !IsZero(input) ==> recipient in spenders
      modifies this
      ensures Valid()
      ensures allotted == Allotments(old(totalSpent), input, old(spenders), recipient)
      ensures hdl == old(hdl) && totalSpent == old(totalSpent)
      ensures spenders == old(spenders) && spent == old(spent)
    {
      ZeroAllotted();
      if IsZero(input) {
        return;
      }

      var total := GrandTotal(totalSpent, input);
      var n := |allotted|;
      assert n == |spenders|;
      var split := Div(total, n);
      ClampToSplit(split);

      var remaining := Remainder(total, n);
      allotted := allotted[recipient := Add(allotted[recipient], remaining)];
      AllotmentsOnPool(totalSpent, input, spenders, recipient);
    }

    /** Zeroes every allotment, keeping the consumers. */
    method ZeroAllotted()
      modifies this`allotted
      ensures allotted == map c | c in old(allotted) :: Zero()
    {
      var pending := allotted.Keys;
      while pending != {}
        invariant pending <= allotted.Keys == old(allotted.Keys)
        invariant forall c :: c in allotted && c !in pending ==> allotted[c] == Zero()
        decreases pending
      {
        var c :| c in pending;
        allotted := allotted[c := Zero()];
        pending := pending - {c};
      }
    }

    /** Allots every consumer what it is still owed of `split`, saturating at zero. */
    method ClampToSplit(split: Budget)
      requires Valid()
      modifies this`allotted
      ensures allotted == map c | c in spenders :: ClampSub(split, spenders[c])
    {
      var pending := spenders.Keys;
      while pending != {}
        invariant pending <= spenders.Keys == allotted.Keys
        invariant forall c :: c in spenders && c !in pending ==> allotted[c] == ClampSub(split, spenders[c])
        decreases pending
      {
        var c :| c in pending;
        allotted := allotted[c := ClampSub(split, spenders[c])];
        pending := pending - {c};
      }
    }

    /** Each output receives its own allotment, tagged with the ledger's handle (not the output's). */
    function TailorOutput(output: NodeHdl): (r: LobeBudget)
      reads this
      requires hdl.Some? && output in allotted
      ensures r.lobe == hdl.value && r.budget == allotted[output]
    {
      LobeBudget(hdl.value, allotted[output])
    }

    /**
      The feedback pass. A batch whose size differs from the number of
      consumers is rejected before anything changes; otherwise every entry
      is added to the running total and to its consumer's cumulative spend,
      and overwrites its consumer's last-spent entry. A balanced ledger
      stays balanced.
     */
    method Feedback(batch: seq<LobeBudget>) returns (res: Outcome<LedgerError>)
      requires Valid()
      requires |batch| == |allotted| ==> KnownLobes(batch, spenders)
      modifies this
      ensures Valid()
      ensures hdl == old(hdl) && allotted == old(allotted)
      ensures res.Fail? <==> |batch| != |old(allotted)|
      ensures res.Fail? ==> totalSpent == old(totalSpent) && spenders == old(spenders) && spent == old(spent)
      ensures res.Pass? ==> (totalSpent == Add(old(totalSpent), BatchTotal(batch))
                             && spenders == AccumulateSpend(old(spenders), batch)
                             && spent == RecordSpend(old(spent), batch))
      ensures old(Balanced()) ==> Balanced()
    {
      if |batch| != |allotted| {
        return Fail(IncompleteFeedback);
      }
      ghost var before := spenders;
      RecordBatch(batch);
      AccumulateSpendSum(before, batch);
      res := Pass;
    }

    /** The loop of `Feedback`: folds every entry of the batch into the three running records, in order. */
    method RecordBatch(batch: seq<LobeBudget>)
      requires Valid() && KnownLobes(batch, spenders)
      modifies this`totalSpent, this`spenders, this`spent
      ensures Valid()
      ensures totalSpent == Add(old(totalSpent), BatchTotal(batch))
      ensures spenders == AccumulateSpend(old(spenders), batch)
      ensures spent == RecordSpend(old(spent), batch)
    {
      var total, acc, last := totalSpent, spenders, spent;
      for i := 0 to |batch|
        invariant total == Add(totalSpent, BatchTotal(batch[..i]))
        invariant acc == AccumulateSpend(spenders, batch[..i])
        invariant last == RecordSpend(spent, batch[..i])
      {
        assert batch[..i + 1][..i] == batch[..i];
        var entry := batch[i];
        total := Add(total, entry.budget);
        acc := acc[entry.lobe := Add(acc[entry.lobe], entry.budget)];
        last := last[entry.lobe := entry.budget];
      }
      assert batch[..|batch|] == batch;
      totalSpent, spenders, spent := total, acc, last;
    }

    /** Reports upstream the sum of the consumers' last reported spends, tagged with the ledger's handle. */
    method TailorFeedback() returns (r: LobeBudget)
      requires hdl.Some?
      ensures r.lobe == hdl.value && r.budget == Sum(spent)
    {
      var acc := Zero();
      var rest := spent;
      while rest != map[]
        invariant Add(acc, Sum(rest)) == Sum(spent)
        decreases |rest|
      {
        var c :| c in rest;
        SumRemove(rest, c);
        AddAssociates(acc, rest[c], Sum(rest - {c}));
        MapRemoveCard(rest, c);
        acc := Add(acc, rest[c]);
        rest := rest - {c};
      }
      r := LobeBudget(hdl.value, acc);
    }
  }
}
