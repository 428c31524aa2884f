/**
  The budget consumer: a lobe that, once per cycle, morphs a random drone
  into a building of a fixed unit type when its budget allows it, and
  reports back what that command cost. Which drone is used and where the
  building goes are random picks; here a command carries only the ability
  it uses.
 */
module DroneMorphers {
  import opened Wrappers
  import opened Budgets

  /** The unit types the lobe inspects; every other type is told apart by its id. */
  datatype UnitType = ZergDrone | ZergHatchery | OtherUnit(id: nat)

  /**
    The game's static data for a unit type. The supply cost is an `f32` in
    the game data and is modelled as a real number.
   */
  datatype UnitTypeData = UnitTypeData(
    mineralCost: nat,
    vespeneCost: nat,
    foodRequired: real,
    ability: nat)

  /** The part of a game frame the lobe reads: the player's units and the unit-type table. */
  datatype Frame = Frame(units: seq<UnitType>, unitTypeData: map<UnitType, UnitTypeData>)

  /** One cycle's input: the frame (required) and the budget from the ledger (optional). */
  datatype MorpherInput = MorpherInput(frame: Frame, budget: Option<LobeBudget>)

  /** A morph order for some drone, at some position near some hatchery, using `ability`. */
  datatype Command = Morph(ability: nat)

  datatype MorpherError = UnitTypeDataMissing(unitType: UnitType)

  /** The number of units of type `t`; it is nonzero exactly when such a unit exists. */
  function Count(units: seq<UnitType>, t: UnitType): (r: nat)
    ensures r <= |units|
    ensures r > 0 <==> t in units
  {
    if units == [] then 0
    else Count(units[..|units| - 1], t) + (if units[|units| - 1] == t then 1 else 0)
  }

  /** Rounding up to the nearest integer. */
  function Ceil(x: real): (r: int)
    ensures x <= r as real < x + 1.0
  {
    -((-x).Floor)
  }

  /** Rust's saturating float-to-`u32` cast, applied to an already integral value. */
  function SaturateU32(i: int): (r: nat)
    ensures r <= U32_MAX
    ensures 0 <= i <= U32_MAX ==> r == i
    ensures i <= 0 ==> r == 0
    ensures i >= U32_MAX ==> r == U32_MAX
  {
    if i < 0 then 0 else if i > U32_MAX then U32_MAX else i
  }

  /**
    What one morph costs, as reported back to the ledger: the mineral and
    vespene costs, the supply cost rounded up (and cast to `u32`), and no
    larva.
   */
  function SpentFor(data: UnitTypeData): (r: Budget)
    ensures r.minerals == data.mineralCost && r.vespene == data.vespeneCost && r.larva == 0
    ensures data.foodRequired <= 0.0 ==> r.food == 0
    ensures 0.0 <= data.foodRequired <= U32_MAX as real
            ==> data.foodRequired <= r.food as real < data.foodRequired + 1.0
    ensures data.foodRequired > U32_MAX as real ==> r.food == U32_MAX
  {
    Budget(data.mineralCost, data.vespeneCost, SaturateU32(Ceil(data.foodRequired)), 0)
  }

  /**
    The decision of one cycle. A command is issued exactly when all of the
    following hold: in one-and-done mode no unit of the target type exists
    yet; a budget was received; it covers the minerals, the vespene and the
    supply the unit costs; and there is at least one drone and at least one
    hatchery.
   */
  function MorphDrone(unitType: UnitType, oneAndDone: bool, input: MorpherInput, data: UnitTypeData)
    : (r: Option<Command>)
    ensures r.Some? <==>
              (!oneAndDone || unitType !in input.frame.units)
              && input.budget.Some?
              && data.mineralCost <= input.budget.value.budget.minerals
              && data.vespeneCost <= input.budget.value.budget.vespene
              && data.foodRequired <= input.budget.value.budget.food as real
              && ZergDrone in input.frame.units
              && ZergHatchery in input.frame.units
    ensures r.Some? ==> r.value.ability == data.ability
  {
    var units := input.frame.units;
    if oneAndDone && Count(units, unitType) >= 1 then None
    else if input.budget.None? then None
    else
      var budget := input.budget.value.budget;
      if data.mineralCost > budget.minerals
         || data.vespeneCost > budget.vespene
         || data.foodRequired > budget.food as real
      then None
      else if Count(units, ZergDrone) < 1 then None
      else if Count(units, ZergHatchery) < 1 then None
      else Some(Morph(data.ability))
  }

  /**
    Whenever a command is issued, the spend reported for it fits within the
    budget it was issued against, in every field: the supply cost is rounded
    up, but a budget's supply is a whole number.
   */
  lemma SpendWithinAllotment(unitType: UnitType, oneAndDone: bool, input: MorpherInput, data: UnitTypeData)
    requires MorphDrone(unitType, oneAndDone, input, data).Some?
    ensures LessEq(SpentFor(data), input.budget.value.budget)
  {
    var food := input.budget.value.budget.food;
    var c := Ceil(data.foodRequired);
    assert c <= food by {
      assert data.foodRequired <= food as real;
      assert (c - 1) as real < food as real;
    }
  }

  class RandomDroneMorpherLobe {
    var hdl: Option<NodeHdl>
    var unitType: UnitType
    var data: Option<UnitTypeData>
    var oneAndDone: bool
    var spent: Budget
    var commands: seq<Command>

    /** A lobe that morphs a drone whenever the budget allows. */
    constructor (unitType: UnitType)
      ensures this.unitType == unitType && !oneAndDone
      ensures hdl.None? && data.None? && spent == Zero() && commands == []
    {
      hdl := None;
      this.unitType := unitType;
      data := None;
      oneAndDone := false;
      spent := Zero();
      commands := [];
    }

    /** A lobe that only morphs while no unit of its type exists. */
    constructor OneAndDone(unitType: UnitType)
      ensures this.unitType == unitType && oneAndDone
      ensures hdl.None? && data.None? && spent == Zero() && commands == []
    {
      hdl := None;
      this.unitType := unitType;
      data := None;
      oneAndDone := true;
      spent := Zero();
      commands := [];
    }

    method Start(h: NodeHdl, inputs: seq<NodeHdl>, outputs: seq<NodeHdl>)
      modifies this`hdl
      ensures hdl == Some(h)
    {
      hdl := Some(h);
    }

    /**
      One cycle: forget last cycle's spend, look the unit-type data up in
      the frame once and keep it, then issue at most one command and record
      its cost as this cycle's spend. Without unit-type data the step fails,
      having already reset the spend but leaving the previous commands.
     */
    method Update(input: MorpherInput) returns (res: Outcome<MorpherError>)
      modifies this`spent, this`data, this`commands
      ensures data == if old(data).None? && unitType in input.frame.unitTypeData
                      then Some(input.frame.unitTypeData[unitType]) else old(data)
      ensures res.Fail? <==> data.None?
      ensures res.Fail? ==> spent == Zero() && commands == old(commands)
      ensures res.Pass? ==>
                var command := MorphDrone(unitType, oneAndDone, input, data.value);
                (command.Some? ==> commands == [command.value] && spent == SpentFor(data.value))
                && (command.None? ==> commands == [] && spent == Zero())
      ensures res.Pass? && commands != [] ==> LessEq(spent, input.budget.value.budget)
    {
      spent := Zero();
      if data.None? {
        if unitType in input.frame.unitTypeData {
          data := Some(input.frame.unitTypeData[unitType]);
        }
      }
      var cmds := [];
      if data.Some? {
        var command := MorphDrone(unitType, oneAndDone, input, data.value);
        if command.Some? {
          cmds := cmds + [command.value];
          spent := SpentFor(data.value);
          SpendWithinAllotment(unitType, oneAndDone, input, data.value);
        }
      } else {
        return Fail(UnitTypeDataMissing(unitType));
      }
      commands := cmds;
      return Pass;
    }

    /** The spend of this cycle, tagged with the lobe's own handle. */
    function TailorFeedback(): (r: LobeBudget)
      reads this
      requires hdl.Some?
      ensures r.lobe == hdl.value && r.budget == spent
    {
      LobeBudget(hdl.value, spent)
    }
  }
}
