/**
  The two simple budget lobes: `WholeBudgetLobe`, which turns the player's
  resource snapshot into the pool for this cycle, and `EvenSplitBudgetLobe`,
  a memoryless divider that hands every output the same floor share.
 */
module Budgeters {
  import opened Budgets

  /** The part of a game frame's player state that a budget is read from. */
  datatype PlayerState = PlayerState(
    minerals: nat,
    vespene: nat,
    foodCap: nat,
    foodUsed: nat,
    larvaCount: nat)

  /**
    The whole budget available in a frame: all minerals, vespene and larva,
    and the free supply `food_cap - food_used`, which underflows (and so
    panics) unless the used supply is within the cap.
   */
  function SnapshotBudget(s: PlayerState): (r: Budget)
    requires s.foodUsed <= s.foodCap
    ensures r.minerals == s.minerals && r.vespene == s.vespene && r.larva == s.larvaCount
    ensures r.food + s.foodUsed == s.foodCap
  {
    Budget(s.minerals, s.vespene, s.foodCap - s.foodUsed, s.larvaCount)
  }

  /** Publishes the whole snapshot as one budget per cycle. */
  class WholeBudgetLobe {
    var budget: Budget

    constructor ()
      ensures budget == Zero()
    {
      budget := Zero();
    }

    method Update(state: PlayerState)
      requires state.foodUsed <= state.foodCap
      modifies this
      ensures budget == SnapshotBudget(state)
    {
      budget := SnapshotBudget(state);
    }

    /** Every output receives the whole budget, tagged with that output's own handle. */
    function TailorOutput(output: NodeHdl): (r: LobeBudget)
      reads this
      ensures r.lobe == output && r.budget == budget
    {
      LobeBudget(output, budget)
    }
  }

  /** Splits its input evenly (rounding down) over however many outputs it was started with. */
  class EvenSplitBudgetLobe {
    var numOutputs: nat
    var budget: Budget

    constructor ()
      ensures numOutputs == 0 && budget == Zero()
    {
      numOutputs := 0;
      budget := Zero();
    }

    method Start(hdl: NodeHdl, inputs: seq<NodeHdl>, outputs: seq<NodeHdl>)
      modifies this
      ensures numOutputs == |outputs| && budget == old(budget)
    {
      numOutputs := |outputs|;
    }

    method Update(input: LobeBudget)
      modifies this
      ensures budget == input.budget && numOutputs == old(numOutputs)
    {
      budget := input.budget;
    }

    /**
      The share of one output: the largest budget that, taken once per
      output, still fits in the input; what is left over in each field is
      less than the number of outputs and is handed to nobody. The share
      does not depend on which output asks.
     */
    function TailorOutput(output: NodeHdl): (r: LobeBudget)
      reads this
      requires numOutputs > 0
      ensures r.lobe == output
      ensures LessEq(Scale(r.budget, numOutputs), budget)
      ensures AllBelow(Sub(budget, Scale(r.budget, numOutputs)), numOutputs)
    {
      LobeBudget(output, Div(budget, numOutputs))
    }
  }

  /** Two outputs of an even split always receive the same budget. */
  lemma EvenSplitSameShare(lobe: EvenSplitBudgetLobe, o1: NodeHdl, o2: NodeHdl)
    requires lobe.numOutputs > 0
    ensures lobe.TailorOutput(o1).budget == lobe.TailorOutput(o2).budget
  {
    var n, b := lobe.numOutputs, lobe.budget;
    DivUnique(b, n, lobe.TailorOutput(o1).budget);
    DivUnique(b, n, lobe.TailorOutput(o2).budget);
  }
}
