# Budget allocation lobes

This project models the resource-budgeting part of a StarCraft II bot. It is
built as a dataflow graph of *lobes*. A budget is four independent resource
counts: minerals, vespene, food (supply) and larva.

- `WholeBudgetLobe` reads the player's resources from the game frame.
- `EvenSplitBudgetLobe` divides what it receives evenly over its outputs.
- `EvenSplitLedgerLobe` is the stateful allocator. It runs in two passes each cycle:
  - on the forward pass it tops every consumer up to an even share of everything spent so far plus the new pool, and hands the division remainder to one consumer;
  - on the feedback pass it folds each consumer's reported spend into its ledger and reports the total upstream.
- `RandomDroneMorpherLobe` is a consumer. It morphs one drone into a building when its budget covers the cost, and reports that cost back as feedback.

Modules:

- `Budgets` (`budget.dfy`): the `Budget` value type and its operators, as componentwise functions on natural numbers.
- `BudgetSums` (`budget_sums.dfy`): sums of budgets over a map keyed by node handle, and over a batch of tagged budgets.
- `Budgeters` (`budgeters.dfy`): the two memoryless lobes, as classes.
- `Ledger` (`ledger.dfy`): the ledger lobe. It is a class whose methods update its running total and its three maps in place. Their contracts tie each new state to a specification function of the old one:
  - `Allotments` for the forward pass;
  - `AccumulateSpend` and `RecordSpend` for the feedback pass.

  Lemmas state what those functions guarantee.
- `DroneMorphers` (`drone_morphers.dfy`): the morph decision as a function, and the lobe's per-cycle bookkeeping as a class.
- `Wrappers` (`wrappers.dfy`): `Option` and the pass/fail `Outcome` that models `cortical::Result<()>`.

The allotments do not always sum to the pool. With the running total equal to the sum of the consumers' spends, an invariant that the feedback pass preserves, the allotments of one cycle always add up to at least the new pool. They add up to exactly the pool if and only if no consumer has spent beyond the even split in any field (`AllotmentsCoverPool`, `Ledger.EvenSplitLedgerLobe.Feedback`). A consumer that has overspent is clamped to zero, while every other consumer is still topped up to the full split, so the ledger then hands out more than it received. When every consumer has spent the same amount and the pool divides evenly, every consumer is allotted the same share (`EvenHistoryEvenAllotments`). If each consumer then reports spending exactly its share, the feedback fold leaves every cumulative spend equal again and the running total at that amount per consumer, so the next divisible pool is split evenly too (`EvenHistoryIsSteady`).

## Model

| member | source | states |
|---|---|---|
| Budgets.Zero | sandbox/src/budgeters.rs:24-33 | the default budget is below every budget in every field |
| Budgets.IsZero | sandbox/src/budgeters.rs:41-45 | a tagged budget is zero exactly when all four of its fields are zero |
| Budgets.Add | sandbox/src/budgeters.rs:68-79 | the fieldwise sum is at least each operand; `AddZero`, `AddCommutes`, `AddAssociates` and `AddCancels` give its algebra |
| Budgets.Sub | sandbox/src/budgeters.rs:80-91 | subtraction is defined when no field underflows (the source panics otherwise); adding the subtrahend back gives the minuend |
| Budgets.Scale | sandbox/src/budgeters.rs:92-103 | multiplying by zero gives the default budget and by a positive factor gives at least the operand; `ScaleStep` and `ScaleAdd` tie it to repeated addition |
| Budgets.Div | sandbox/src/budgeters.rs:104-115 | for a nonzero divisor, the quotient taken `k` times fits in the dividend, and what is left is below `k` in every field |
| Budgets.DivUnique | sandbox/src/budgeters.rs:104-115 | the quotient is the only budget with the property `Div` promises |
| Budgets.QuotientUnique | sandbox/src/budgeters.rs:109-112 | for one field, the floor quotient is the only value within one divisor below the dividend |
| Budgets.ClampSub | sandbox/src/budgeters.rs:387-413 | the saturating per-field subtraction of the ledger: adding the subtrahend back gives the fieldwise maximum; the result never exceeds the minuend; without underflow it equals `Sub` |
| Budgets.ScaleAdd | sandbox/src/budgeters.rs:68-103 | multiplying a sum by `k` gives the sum of the two products |
| Budgets.AddZero | sandbox/src/budgeters.rs:24-33 | the default budget is the identity of `+` |
| Budgets.AddCommutes | sandbox/src/budgeters.rs:68-79 | `+` on budgets is commutative |
| Budgets.AddAssociates | sandbox/src/budgeters.rs:68-79 | `+` on budgets is associative |
| Budgets.AddThenSub | sandbox/src/budgeters.rs:68-91 | `(a + b) - b` never underflows and gives back `a` |
| Budgets.AddCancels | sandbox/src/budgeters.rs:68-79 | `+` cancels on the right |
| Budgets.ScaleStep | sandbox/src/budgeters.rs:92-103 | multiplying by 0 gives the default budget; multiplying by `k + 1` adds one copy to the product by `k` |
| BudgetSums.Sum | sandbox/src/budgeters.rs:462-465 | the fold of a map's values is at least every value; `SumRemove` shows it does not depend on the order of the fold |
| BudgetSums.SumRemove | sandbox/src/budgeters.rs:462-465 | the fold over a map's values does not depend on order: any entry can be split off the sum |
| BudgetSums.SumSet | sandbox/src/budgeters.rs:449 | overwriting one entry replaces its old value by the new one in the sum |
| BudgetSums.SumAddAt | sandbox/src/budgeters.rs:448 | adding `b` to one entry adds `b` to the sum |
| BudgetSums.SumConst | sandbox/src/budgeters.rs:418 | a map whose values are all `v` sums to `v` times its size |
| BudgetSums.SumPointwise | sandbox/src/budgeters.rs:462-465 | the sum of entrywise sums is the sum of the two sums |
| BudgetSums.SumMonotone | sandbox/src/budgeters.rs:462-465 | sums are monotone under the fieldwise order |
| BudgetSums.SumStrict | sandbox/src/budgeters.rs:462-465 | raising at least one entry (and lowering none) changes the sum |
| BudgetSums.ConstBatchTotal | sandbox/src/budgeters.rs:446-447 | a batch whose every entry is `q` adds `q` times its length to the running total |
| BudgetSums.BatchTotal | sandbox/src/budgeters.rs:446-447 | the total a batch adds to the running total is at least each of its entries; `AccumulateSpendSum` shows it is also what the batch adds to the consumers' spends |
| Budgeters.SnapshotBudget | sandbox/src/budgeters.rs:162-170 | the frame's budget carries all minerals, vespene and larva, and the free supply, which with the used supply makes up the cap |
| Budgeters.WholeBudgetLobe.constructor | sandbox/src/budgeters.rs:122-126 | a new lobe holds the default budget |
| Budgeters.WholeBudgetLobe.Update | sandbox/src/budgeters.rs:162-173 | after an update the lobe holds the frame's budget |
| Budgeters.WholeBudgetLobe.TailorOutput | sandbox/src/budgeters.rs:175-183 | every output receives the whole budget, tagged with that output's handle |
| Budgeters.EvenSplitBudgetLobe.constructor | sandbox/src/budgeters.rs:198-202 | a new lobe has no outputs and the default budget |
| Budgeters.EvenSplitBudgetLobe.Start | sandbox/src/budgeters.rs:238-249 | starting records the number of outputs and keeps the budget |
| Budgeters.EvenSplitBudgetLobe.Update | sandbox/src/budgeters.rs:251-255 | an update stores the incoming budget and keeps the output count |
| Budgeters.EvenSplitBudgetLobe.TailorOutput | sandbox/src/budgeters.rs:257-275 | each output gets the largest share that, taken once per output, fits in the budget; less than one unit per output is left over in each field |
| Budgeters.EvenSplitSameShare | sandbox/src/budgeters.rs:257-275 | any two outputs receive the same share |
| Ledger.GrandTotal | sandbox/src/budgeters.rs:381 | the cumulative claim covers the pool, and taking the pool back off leaves the running total |
| Ledger.Remainder | sandbox/src/budgeters.rs:418 | the remainder is below the consumer count in each field, and together with the split taken once per consumer makes up the total |
| Ledger.Allotments | sandbox/src/budgeters.rs:371-425 | the forward pass allots to exactly the registered consumers |
| Ledger.AllotmentsOnPool | sandbox/src/budgeters.rs:381-422 | on a nonzero pool, everyone gets the clamped split and the recipient also gets the remainder |
| Ledger.ZeroInputAllotsNothing | sandbox/src/budgeters.rs:372-379 | a zero pool zeroes every allotment |
| Ledger.AllotmentTopsUpToSplit | sandbox/src/budgeters.rs:381-416 | a non-recipient's allotment plus its cumulative spend is the fieldwise maximum of the split and that spend; the allotment never exceeds the split |
| Ledger.RecipientGetsRemainder | sandbox/src/budgeters.rs:381-422 | the recipient's allotment plus its cumulative spend is the fieldwise maximum of the split and that spend, plus the whole remainder (whose bounds `Remainder` states) |
| Ledger.AllotmentWithinGrandTotal | sandbox/src/budgeters.rs:371-425 | no allotment exceeds the cumulative total, and where that total fits in `u32` (`FitsU32`) so does every allotment |
| Ledger.EvenShareSum | sandbox/src/budgeters.rs:381-422 | the split for everyone plus the remainder for one sums to the total |
| Ledger.SharesBelowTopUps | sandbox/src/budgeters.rs:384-416 | for each consumer, the even share is at most its spend plus its allotment; they agree for every consumer exactly when nobody overspent |
| Ledger.SumsOfShares | sandbox/src/budgeters.rs:381-422 | the sums of the two maps `SharesBelowTopUps` compares |
| Ledger.ToppedUpMapSum | sandbox/src/budgeters.rs:381-422 | spends plus allotments sum to at least the split taken once per consumer plus the remainder, with equality exactly when nobody overspent |
| Ledger.ToppedUpSum | sandbox/src/budgeters.rs:371-425 | spends plus allotments sum to at least the cumulative total, and to exactly that total if and only if no consumer exceeded the split in any field |
| Ledger.AllotmentsCoverPool | sandbox/src/budgeters.rs:371-425 | for a balanced ledger, a cycle's allotments cover the new pool, and equal it if and only if no consumer exceeded the split |
| Ledger.EvenHistoryEvenAllotments | sandbox/src/budgeters.rs:371-425 | when every consumer has spent the same `s`, the running total is `s` per consumer and the pool is `q` per consumer, every consumer is allotted exactly `q` |
| Ledger.EvenHistoryIsSteady | sandbox/src/budgeters.rs:371-453 | in that even state, if every consumer then reports spending exactly its allotment, one entry each, the feedback fold makes every cumulative spend `s + q` and the running total `s + q` per consumer: the same even state again |
| Ledger.AccumulateSpend | sandbox/src/budgeters.rs:446-450 | folding a batch into the cumulative spends keeps the set of consumers |
| Ledger.RecordSpend | sandbox/src/budgeters.rs:446-450 | overwriting the last-spent map with a batch keeps the set of consumers |
| Ledger.AccumulateSpendSum | sandbox/src/budgeters.rs:446-450 | a batch raises the sum of the cumulative spends by exactly its own total, just as it raises the running total |
| Ledger.RecordSpendLast | sandbox/src/budgeters.rs:449 | a consumer's last entry in the batch is what the last-spent map records for it |
| Ledger.RecordSpendUntouched | sandbox/src/budgeters.rs:446-450 | a consumer absent from the batch keeps its last-spent entry |
| Ledger.AccumulateSpendUntouched | sandbox/src/budgeters.rs:446-450 | a consumer absent from the batch keeps its cumulative spend |
| Ledger.AccumulateSpendOnce | sandbox/src/budgeters.rs:448 | a consumer that appears exactly once in the batch has that entry added to its cumulative spend |
| Ledger.EvenFeedbackStaysEven | sandbox/src/budgeters.rs:446-450 | when every cumulative spend is `s`, the running total is `s` per consumer, and every consumer reports `q` once, the spends all become `s + q` and the running total `s + q` per consumer |
| Ledger.EvenSpendsStayEven | sandbox/src/budgeters.rs:448 | when every cumulative spend is `s` and every consumer reports `q` once, every cumulative spend becomes `s + q` |
| Ledger.EvenSplitLedgerLobe.constructor | sandbox/src/budgeters.rs:328-340 | a new ledger has no handle, a zero running total and three empty maps; it is balanced |
| Ledger.EvenSplitLedgerLobe.Start | sandbox/src/budgeters.rs:348-369 | the three maps are rebuilt with exactly the outputs as keys, all zero; the handle is set; the running total is kept, so the ledger is balanced only if that total was zero |
| Ledger.EvenSplitLedgerLobe.Update | sandbox/src/budgeters.rs:371-425 | the allotments become `Allotments` of the old state; the running total, the spends and the handle do not change |
| Ledger.EvenSplitLedgerLobe.ZeroAllotted | sandbox/src/budgeters.rs:372-375 | every allotment is zeroed and the keys are kept |
| Ledger.EvenSplitLedgerLobe.ClampToSplit | sandbox/src/budgeters.rs:384-416 | every consumer is allotted what it is still owed of the split, saturating at zero |
| Ledger.EvenSplitLedgerLobe.TailorOutput | sandbox/src/budgeters.rs:427-438 | an output receives its own allotment, tagged with the ledger's handle |
| Ledger.EvenSplitLedgerLobe.Feedback | sandbox/src/budgeters.rs:440-453 | a batch of the wrong size is rejected with nothing changed; otherwise the total, the cumulative spends and the last spends absorb the batch in order; a balanced ledger stays balanced |
| Ledger.EvenSplitLedgerLobe.RecordBatch | sandbox/src/budgeters.rs:446-450 | the loop folds every entry into the running total, the cumulative spends and the last spends |
| Ledger.EvenSplitLedgerLobe.TailorFeedback | sandbox/src/budgeters.rs:455-469 | upstream receives the sum of the last reported spends, tagged with the ledger's handle |
| DroneMorphers.Count | src/lobes/drone_morphers.rs:59-61 | the number of units of a type is nonzero exactly when such a unit exists |
| DroneMorphers.Ceil | src/lobes/drone_morphers.rs:196 | rounding up gives the least integer at or above the value |
| DroneMorphers.SaturateU32 | src/lobes/drone_morphers.rs:196 | the saturating `as u32` cast: never above the `u32` maximum, exact for values in range, zero for non-positive values and the maximum for values at or above it |
| DroneMorphers.SpentFor | src/lobes/drone_morphers.rs:193-199 | the reported spend is the unit's mineral and vespene cost and its supply rounded up (saturating at zero below and at the `u32` maximum above), with no larva |
| DroneMorphers.MorphDrone | src/lobes/drone_morphers.rs:53-118 | a command is issued if and only if (one-and-done mode has no unit of the type yet) and a budget arrived, covers all three costs, and a drone and a hatchery exist; the command uses the unit's ability |
| DroneMorphers.SpendWithinAllotment | src/lobes/drone_morphers.rs:78-83 | whenever a command is issued, the spend reported for it fits in the budget in every field, rounded-up supply included |
| DroneMorphers.RandomDroneMorpherLobe.constructor | src/lobes/drone_morphers.rs:25-37 | a new lobe has the given unit type, is not one-and-done, and has no handle, data, spend or commands |
| DroneMorphers.RandomDroneMorpherLobe.OneAndDone | src/lobes/drone_morphers.rs:39-51 | the same, in one-and-done mode |
| DroneMorphers.RandomDroneMorpherLobe.Start | src/lobes/drone_morphers.rs:163-174 | starting records the lobe's handle |
| DroneMorphers.RandomDroneMorpherLobe.Update | src/lobes/drone_morphers.rs:176-209 | the unit data is looked up once and kept; without it the step fails with the spend reset and the old commands kept; otherwise the commands are the one morph decision (or none) and the spend is its cost (or zero), never above the budget |
| DroneMorphers.RandomDroneMorpherLobe.TailorFeedback | src/lobes/drone_morphers.rs:221-232 | the feedback is this cycle's spend, tagged with the lobe's handle |

## Left out

- `u32` overflow of `+` and `*` on budgets is not modelled: fields are unbounded naturals. `AllotmentWithinGrandTotal` states that every allotment fits in `u32` whenever the cumulative total does, so overflow can first appear only in that total.
- The compound assignments `+=`, `-=`, `*=` and `/=` are written as `x := Add(x, y)` and so on, in the methods that use them.
- The remainder recipient is a parameter of `Ledger.EvenSplitLedgerLobe.Update`, not a random pick. It may be any registered consumer, because the source takes a random index into the map's iteration order.
- Ledger.EvenSplitLedgerLobe.Update: requires at least one consumer (implied by `recipient in spenders`) only when the pool is nonzero. With no consumers the source divides by zero on that path.
- Ledger.EvenSplitLedgerLobe.Feedback: requires that every entry of a complete batch names a registered consumer. The source panics on an unknown handle after having changed part of its state, and that partial update is not modelled. Duplicate handles are allowed, as in the source.
- The morph command keeps only the ability. The random choice of drone and hatchery, the jittered target position and the geometry are left out, because they depend on randomness and floating-point positions.
- `f32` values (the supply cost and `budget.food as f32`) are modelled as real numbers. Rounding in the conversion of supply counts above 2^24 to `f32` is not modelled.
- The morpher's `tailor_output` only clones its command list, and is not part of this model. Neither are the empty feedback outputs of the two memoryless lobes.
- The `create_lobe_data!` and `constrain_lobe!` macros and the graph wiring are not part of this model. Each lobe's inputs are passed to its methods directly.
- `EvenSplitBudgetLobe::tailor_output` with zero outputs divides by zero in the source. Budgeters.EvenSplitBudgetLobe.TailorOutput requires at least one output.
- Budgeters.SnapshotBudget: requires the used supply to be within the supply cap. The source subtracts without a guard, so when used supply exceeds the cap (after a supply building dies, say) it panics in a debug build and wraps to nearly 2^32 free supply in a release build; neither outcome is modelled.
- Budgeters.WholeBudgetLobe.Update: requires the used supply to be within the supply cap, for the same unguarded subtraction as `SnapshotBudget`; the panic and the wrap-around are not modelled.
- Ledger.EvenSplitLedgerLobe.TailorOutput: requires that the ledger has been started and that the output is a registered consumer. The source panics on the missing handle and on the missing map entry; that panic is not modelled.
- Ledger.EvenSplitLedgerLobe.TailorFeedback: requires that the ledger has been started; the source panics on the missing handle, which is not modelled.
- DroneMorphers.RandomDroneMorpherLobe.TailorFeedback: requires that the lobe has been started; the source panics on the missing handle, which is not modelled.
- Ledger.EvenSplitLedgerLobe.Update: the convergence of the allotments over many cycles is stated only for an even history, a pool that divides evenly and consumers that spend exactly their allotments (`EvenHistoryEvenAllotments`, `EvenHistoryIsSteady`). In general the remainder goes to a consumer picked at random each cycle, and a consumer that overspent is clamped while the others are topped up (`AllotmentsCoverPool`), so no exact steady state holds for arbitrary pools and spends.
