/**
 * The zero-feed controller (`ZeroFeedController`): each control cycle reads
 * the grid power, decides from the grid power, the average SoC and the
 * current operating point what the batteries should do, limits how fast that
 * operating point may move, and commands the fleet only when the mode
 * changes or the power moves by more than half the per-unit minimum.
 * Grid power is positive when importing and negative when exporting;
 * battery power is a magnitude, its direction given by the mode.
 */
module ZeroFeed {
  import opened Wrappers
  import opened JsonData
  import opened Battery
  import Meter

  /** The largest change of the total power one cycle may make, in watts. */
  const MaxPowerChangeRate: real := 750.0
  /** Below this average SoC, charging only starts on a clear surplus. */
  const LowSocThreshold: real := 13.0
  /** The grid power (export) that counts as a clear surplus. */
  const LowSocMinSurplus: real := -100.0
  /** How far the grid must leave its target band before a stopped fleet starts. */
  const StartThreshold: real := 50.0

  function Abs(x: real): real { if x < 0.0 then -x else x }
  function MinR(a: real, b: real): real { if a <= b then a else b }
  function MaxR(a: real, b: real): real { if a >= b then a else b }

  /** The controller's settings, as read from the control and battery sections. */
  datatype Tuning = Tuning(
    targetCharge: real,       // grid target while charging (normally -20 W)
    targetDischarge: real,    // grid target while discharging (normally +20 W)
    maxPowerPerUnit: real,
    minPowerPerUnit: real,
    minSocDischarge: real,
    maxSocCharge: real)

  /** Which rule produced a decision. */
  datatype Reason =
    | SocTooLowToDischarge
    | ConsumptionBelowMinimum
    | DischargeAtMaximum
    | DischargeAdjusted
    | SocTooHighToCharge
    | NoPvWhileImporting
    | PvBelowMinimum
    | ChargeAdjusted
    | ChargeAtMaximum
    | SocTooHighToStartCharging
    | LowSocNeedsSurplus
    | PvTooWeakToStart
    | StartCharging
    | SocTooLowToStartDischarging
    | ImportTooSmallToStart
    | StartDischarging
    | GridOnTarget

  datatype Decision = Decision(mode: Mode, power: real, reason: Reason)

  function StopFor(reason: Reason): Decision { Decision(Stopped, 0.0, reason) }

  /**
   * The total a running charge aims for. While importing, the PV production
   * is the charge power minus the import, and the goal keeps |target_charge|
   * of export only when the PV covers the minimum plus that margin (otherwise
   * the flexible goal of 0 W). While exporting, the goal always keeps the
   * |target_charge| margin.
   */
  function ChargeGoal(grid: real, power: real, t: Tuning): real {
    if grid >= 0.0 then
      var pv := power - grid;
      if pv >= t.minPowerPerUnit + Abs(t.targetCharge) then pv - Abs(t.targetCharge) else pv
    else power + Abs(grid) - Abs(t.targetCharge)
  }

  /**
   * The total a running discharge aims for: the consumption less the
   * discharge target when it covers the minimum plus that target, otherwise
   * the whole consumption (the flexible goal of 0 W).
   */
  function DischargeGoal(grid: real, power: real, t: Tuning): real {
    var consumption := grid + power;
    if consumption >= t.minPowerPerUnit + t.targetDischarge then consumption - t.targetDischarge else consumption
  }

  /**
   * `_calculate_optimal_control`: the mode and total power the fleet should
   * run at, from the grid power, the average SoC, the current operating point
   * and the largest total the eligible units can charge or discharge with.
   */
  function Decide(grid: real, soc: real, mode: Mode, power: real, maxCharge: real, maxDischarge: real, t: Tuning)
    : (d: Decision)
    ensures d.mode == Stopped ==> d.power == 0.0
    ensures d.mode == Charging ==> soc < t.maxSocCharge && d.power <= maxCharge
    ensures d.mode == Charging ==> d.power >= MinR(t.minPowerPerUnit, maxCharge)
    ensures d.mode == Discharging ==> soc > t.minSocDischarge && d.power <= maxDischarge
    ensures d.mode == Discharging ==> d.power >= MinR(t.minPowerPerUnit, maxDischarge)
    // the flow never reverses in one step
    ensures mode == Charging ==> d.mode != Discharging
    ensures mode == Discharging ==> d.mode != Charging
    // a stopped fleet only starts once the grid leaves the band around its targets
    ensures mode == Stopped && d.mode == Charging ==> grid < t.targetCharge - StartThreshold
    ensures mode == Stopped && d.mode == Discharging ==> grid > t.targetDischarge + StartThreshold
    // ... and only when the deviation from the target covers the per-unit minimum
    ensures mode == Stopped && d.mode == Charging ==> Abs(grid) - Abs(t.targetCharge) >= t.minPowerPerUnit
    ensures mode == Stopped && d.mode == Discharging ==> grid - t.targetDischarge >= t.minPowerPerUnit
    // low-SoC protection when starting to charge
    ensures mode == Stopped && d.mode == Charging && soc < LowSocThreshold ==> grid <= LowSocMinSurplus
    // exactly when a stopped fleet starts, and at what power
    ensures mode == Stopped ==>
      (d.mode == Charging <==>
        grid < t.targetCharge - StartThreshold && soc < t.maxSocCharge &&
        !(soc < LowSocThreshold && grid > LowSocMinSurplus) &&
        Abs(grid) - Abs(t.targetCharge) >= t.minPowerPerUnit)
    ensures mode == Stopped && d.mode == Charging ==> d.power == MinR(Abs(grid) - Abs(t.targetCharge), maxCharge)
    ensures mode == Stopped ==>
      (d.mode == Discharging <==>
        !(grid < t.targetCharge - StartThreshold) && grid > t.targetDischarge + StartThreshold &&
        soc > t.minSocDischarge && grid - t.targetDischarge >= t.minPowerPerUnit)
    ensures mode == Stopped && d.mode == Discharging ==> d.power == MinR(grid - t.targetDischarge, maxDischarge)
    // a running mode continues exactly when its SoC limit and its goal allow, at its goal capped at the maximum
    ensures mode == Charging ==>
      (d.mode == Charging <==>
        soc < t.maxSocCharge && (grid >= 0.0 ==> power - grid > 0.0) && ChargeGoal(grid, power, t) >= t.minPowerPerUnit)
    ensures mode == Charging && d.mode == Charging ==> d.power == MinR(ChargeGoal(grid, power, t), maxCharge)
    ensures mode == Discharging ==>
      (d.mode == Discharging <==> soc > t.minSocDischarge && DischargeGoal(grid, power, t) >= t.minPowerPerUnit)
    ensures mode == Discharging && d.mode == Discharging ==> d.power == MinR(DischargeGoal(grid, power, t), maxDischarge)
  {
    match mode
    case Discharging =>
      if soc <= t.minSocDischarge then StopFor(SocTooLowToDischarge)
      else
        var consumption := grid + power;
        var target :=
          if consumption >= t.minPowerPerUnit + t.targetDischarge then consumption - t.targetDischarge
          else consumption;
        if target < t.minPowerPerUnit then StopFor(ConsumptionBelowMinimum)
        else if target > maxDischarge then Decision(Discharging, maxDischarge, DischargeAtMaximum)
        else Decision(Discharging, target, DischargeAdjusted)
    case Charging =>
      if soc >= t.maxSocCharge then StopFor(SocTooHighToCharge)
      else if grid >= 0.0 then
        var pv := power - grid;
        if pv <= 0.0 then StopFor(NoPvWhileImporting)
        else
          var target :=
            if pv >= t.minPowerPerUnit + Abs(t.targetCharge) then pv - Abs(t.targetCharge) else pv;
          if target < t.minPowerPerUnit then StopFor(PvBelowMinimum)
          else Decision(Charging, MinR(target, maxCharge), ChargeAdjusted)
      else
        var pv := power + Abs(grid);
        var target := pv - Abs(t.targetCharge);
        if target < t.minPowerPerUnit then StopFor(PvBelowMinimum)
        else if target > maxCharge then Decision(Charging, maxCharge, ChargeAtMaximum)
        else Decision(Charging, target, ChargeAdjusted)
    case Stopped =>
      if grid < t.targetCharge - StartThreshold then
        if soc >= t.maxSocCharge then StopFor(SocTooHighToStartCharging)
        else if soc < LowSocThreshold && grid > LowSocMinSurplus then StopFor(LowSocNeedsSurplus)
        else
          var required := Abs(grid) - Abs(t.targetCharge);
          if required >= t.minPowerPerUnit then Decision(Charging, MinR(required, maxCharge), StartCharging)
          else StopFor(PvTooWeakToStart)
      else if grid > t.targetDischarge + StartThreshold then
        if soc <= t.minSocDischarge then StopFor(SocTooLowToStartDischarging)
        else
          var required := grid - t.targetDischarge;
          if required >= t.minPowerPerUnit then Decision(Discharging, MinR(required, maxDischarge), StartDischarging)
          else StopFor(ImportTooSmallToStart)
      else StopFor(GridOnTarget)
  }

  /**
   * Adjusting a running discharge aims the grid at its discharge target, or
   * at 0 W when consumption is too small for the minimum plus the target:
   * if the units deliver the new power, the grid reads that target.
   */
  lemma DischargeAdjustmentHitsTarget(grid: real, soc: real, power: real, maxCharge: real, maxDischarge: real, t: Tuning)
    requires Decide(grid, soc, Discharging, power, maxCharge, maxDischarge, t).reason == DischargeAdjusted
    ensures var d := Decide(grid, soc, Discharging, power, maxCharge, maxDischarge, t);
      var consumption := grid + power;
      consumption - d.power == (if consumption >= t.minPowerPerUnit + t.targetDischarge then t.targetDischarge else 0.0)
  {
  }

  /**
   * Adjusting a running charge while exporting aims the grid at the charge
   * target: if the units take the new power, the export equals |target|.
   */
  lemma ChargeAdjustmentHitsTarget(grid: real, soc: real, power: real, maxCharge: real, maxDischarge: real, t: Tuning)
    requires grid < 0.0
    requires Decide(grid, soc, Charging, power, maxCharge, maxDischarge, t).reason == ChargeAdjusted
    ensures var d := Decide(grid, soc, Charging, power, maxCharge, maxDischarge, t);
      (power + Abs(grid)) - d.power == Abs(t.targetCharge)
  {
  }

  /** A running mode is kept while its SoC limit allows and the grid leaves room for the minimum. */
  lemma DischargeContinuesIff(grid: real, soc: real, power: real, maxCharge: real, maxDischarge: real, t: Tuning)
    ensures var d := Decide(grid, soc, Discharging, power, maxCharge, maxDischarge, t);
      var consumption := grid + power;
      var target := if consumption >= t.minPowerPerUnit + t.targetDischarge then consumption - t.targetDischarge else consumption;
      d.mode == Discharging <==> soc > t.minSocDischarge && target >= t.minPowerPerUnit
  {
  }

  /** The result of `_apply_rate_limiting`. */
  datatype Limited = Limited(mode: Mode, power: real, rateLimited: bool)

  /**
   * `_apply_rate_limiting`: a stop takes effect at once; a start or a change
   * of direction is capped at 750 W; within one mode the power moves by at
   * most 750 W per cycle and never below 0.
   */
  function RateLimit(targetMode: Mode, targetPower: real, currentMode: Mode, currentPower: real): (r: Limited)
    ensures r.mode == targetMode
    ensures targetMode == Stopped ==> r.power == 0.0 && !r.rateLimited
    ensures targetMode != Stopped && currentMode != targetMode ==>
      r.power == MinR(targetPower, MaxPowerChangeRate) && (r.rateLimited <==> targetPower > MaxPowerChangeRate)
    ensures targetMode != Stopped && currentMode == targetMode && currentPower >= 0.0 ==>
      Abs(r.power - currentPower) <= MaxPowerChangeRate && r.power >= MinR(0.0, targetPower)
    ensures targetMode != Stopped && currentMode == targetMode ==>
      (r.rateLimited <==> Abs(targetPower - currentPower) > MaxPowerChangeRate)
    ensures targetMode != Stopped && !r.rateLimited ==> r.power == targetPower
    ensures targetMode != Stopped && currentMode == targetMode && r.rateLimited ==>
      r.power == MaxR(0.0, if targetPower > currentPower then currentPower + MaxPowerChangeRate
                           else currentPower - MaxPowerChangeRate)
  {
    if targetMode == Stopped then Limited(Stopped, 0.0, false)
    else if currentMode == Stopped && targetMode != Stopped then
      if targetPower > MaxPowerChangeRate then Limited(targetMode, MinR(targetPower, MaxPowerChangeRate), true)
      else Limited(targetMode, targetPower, false)
    else if currentMode != targetMode then
      if targetPower > MaxPowerChangeRate then Limited(targetMode, MinR(targetPower, MaxPowerChangeRate), true)
      else Limited(targetMode, targetPower, false)
    else
      var change := targetPower - currentPower;
      if Abs(change) <= MaxPowerChangeRate then Limited(targetMode, targetPower, false)
      else
        var limitedPower := if change > 0.0 then currentPower + MaxPowerChangeRate else currentPower - MaxPowerChangeRate;
        Limited(targetMode, MaxR(0.0, limitedPower), true)
  }

  // ---------------------------------------------------------------------
  // A whole control cycle, as values
  // ---------------------------------------------------------------------

  /** The operating point the controller believes the fleet is at, and its statistics. */
  datatype ControlState = ControlState(mode: Mode, power: real, lastGrid: real, modeChanges: nat)

  const InitialControl: ControlState := ControlState(Stopped, 0.0, 0.0, 0)

  /** What the controller keeps true of its operating point. */
  predicate ControlOk(c: ControlState) {
    c.power >= 0.0 && (c.mode == Stopped ==> c.power == 0.0)
  }

  /** Settings under which totals stay non-negative. */
  predicate TuningOk(t: Tuning) {
    t.minPowerPerUnit >= 0.0 && t.maxPowerPerUnit >= 0.0
  }

  function UnitsFor(fleet: seq<UnitState>, mode: Mode, t: Tuning): nat {
    CountTrue(EligibleMask(fleet, mode, t.minSocDischarge, t.maxSocCharge))
  }

  /** `_get_max_total_charge_power`. */
  function MaxTotalCharge(fleet: seq<UnitState>, t: Tuning): real {
    UnitsFor(fleet, Charging, t) as real * t.maxPowerPerUnit
  }

  /** `_get_max_total_discharge_power`. */
  function MaxTotalDischarge(fleet: seq<UnitState>, t: Tuning): real {
    UnitsFor(fleet, Discharging, t) as real * t.maxPowerPerUnit
  }

  /** `_execute_battery_control`: a stop stops every unit, anything else is distributed. */
  function Actuate(fleet: seq<UnitState>, mode: Mode, total: real, t: Tuning, outcomes: seq<WriteOutcome>): Dispatch
    requires |outcomes| == |fleet|
  {
    if mode == Stopped then StopAllResult(fleet, outcomes)
    else Distribution(fleet, Abs(total), mode, t.minSocDischarge, t.maxSocCharge, outcomes)
  }

  /** The outcome of one cycle: new controller state, new fleet, the flag returned, and whether the fleet was commanded. */
  datatype CycleOutcome = CycleOutcome(ctrl: ControlState, fleet: seq<UnitState>, ok: bool, acted: bool)

  /** The operating point a cycle aims for: the decision on grid power `g`, rate-limited. */
  function Plan(c: ControlState, t: Tuning, fleet: seq<UnitState>, g: real): Limited {
    var d := Decide(g, AverageSoc(fleet), c.mode, c.power, MaxTotalCharge(fleet, t), MaxTotalDischarge(fleet, t), t);
    RateLimit(d.mode, d.power, c.mode, c.power)
  }

  /**
   * `execute_control_cycle` once its meter poll returned grid power `g`:
   * decide, rate-limit, and command the fleet when the mode changes or the
   * power moves by more than half the per-unit minimum. Only a completed
   * command moves the operating point; a failed one leaves it (and the last
   * grid power) as it was.
   */
  function Regulate(c: ControlState, t: Tuning, fleet: seq<UnitState>, g: real, outcomes: seq<WriteOutcome>)
    : (r: CycleOutcome)
    requires |outcomes| == |fleet|
    ensures |r.fleet| == |fleet|
  {
    Commit(c, t, fleet, g, Plan(c, t, fleet, g), outcomes)
  }

  /** The actuation half of `Regulate`, for the rate-limited target `l`. */
  function Commit(c: ControlState, t: Tuning, fleet: seq<UnitState>, g: real, l: Limited, outcomes: seq<WriteOutcome>)
    : (r: CycleOutcome)
    requires |outcomes| == |fleet|
    ensures |r.fleet| == |fleet|
  {
    var modeChanged := l.mode != c.mode;
    if modeChanged || Abs(l.power - c.power) > t.minPowerPerUnit / 2.0 then
      var act := Actuate(fleet, l.mode, l.power, t, outcomes);
      if act.ok then
        CycleOutcome(ControlState(l.mode, l.power, g, if modeChanged then c.modeChanges + 1 else c.modeChanges),
                     act.fleet, true, true)
      else CycleOutcome(c, act.fleet, false, true)
    else CycleOutcome(c.(lastGrid := g), fleet, true, false)
  }

  /** `execute_control_cycle`, given what its meter poll returned. */
  function Cycle(c: ControlState, t: Tuning, fleet: seq<UnitState>, grid: Option<real>, outcomes: seq<WriteOutcome>)
    : (r: CycleOutcome)
    requires |outcomes| == |fleet|
    ensures |r.fleet| == |fleet|
  {
    match grid
    case None => CycleOutcome(c, fleet, false, false)
    case Some(g) => Regulate(c, t, fleet, g, outcomes)
  }

  /** Without a grid reading nothing is decided and nothing is commanded. */
  lemma NoReadingNoAction(c: ControlState, t: Tuning, fleet: seq<UnitState>, outcomes: seq<WriteOutcome>)
    requires |outcomes| == |fleet|
    ensures Cycle(c, t, fleet, None, outcomes) == CycleOutcome(c, fleet, false, false)
  {
  }

  /** A cycle keeps the controller's operating point well-formed. */
  lemma CycleKeepsControlOk(c: ControlState, t: Tuning, fleet: seq<UnitState>, grid: Option<real>, outcomes: seq<WriteOutcome>)
    requires |outcomes| == |fleet| && ControlOk(c) && TuningOk(t)
    ensures ControlOk(Cycle(c, t, fleet, grid, outcomes).ctrl)
  {
    if grid.Some? {
      PlanKeepsControlOk(c, t, fleet, grid.value);
    }
  }

  /** The rate-limited target is itself a well-formed operating point. */
  lemma PlanKeepsControlOk(c: ControlState, t: Tuning, fleet: seq<UnitState>, g: real)
    requires ControlOk(c) && TuningOk(t)
    ensures var l := Plan(c, t, fleet, g);
      l.power >= 0.0 && (l.mode == Stopped ==> l.power == 0.0)
  {
    var maxC := MaxTotalCharge(fleet, t);
    var maxD := MaxTotalDischarge(fleet, t);
    assert maxC >= 0.0 && maxD >= 0.0;
    var d := Decide(g, AverageSoc(fleet), c.mode, c.power, maxC, maxD, t);
    assert d.power >= 0.0;
  }

  /**
   * The committed operating point moves smoothly: within one mode by at most
   * 750 W, and a start or a change of direction commits at most 750 W.
   */
  lemma CycleSlewBounded(c: ControlState, t: Tuning, fleet: seq<UnitState>, grid: Option<real>, outcomes: seq<WriteOutcome>)
    requires |outcomes| == |fleet| && ControlOk(c)
    ensures var n := Cycle(c, t, fleet, grid, outcomes).ctrl;
      && (n.mode == c.mode ==> Abs(n.power - c.power) <= MaxPowerChangeRate)
      && (n.mode != c.mode ==> n.power <= MaxPowerChangeRate)
  {
  }

  /** The mode-change counter counts exactly the committed changes of mode. */
  lemma CycleCountsModeChanges(c: ControlState, t: Tuning, fleet: seq<UnitState>, grid: Option<real>, outcomes: seq<WriteOutcome>)
    requires |outcomes| == |fleet|
    ensures var n := Cycle(c, t, fleet, grid, outcomes).ctrl;
      n.modeChanges == if n.mode != c.mode then c.modeChanges + 1 else c.modeChanges
  {
  }

  /** A cycle that commanded the fleet and failed leaves the operating point untouched. */
  lemma FailedCommandKeepsControl(c: ControlState, t: Tuning, fleet: seq<UnitState>, grid: Option<real>, outcomes: seq<WriteOutcome>)
    requires |outcomes| == |fleet|
    ensures var r := Cycle(c, t, fleet, grid, outcomes);
      !r.ok ==> r.ctrl == c
    ensures var r := Cycle(c, t, fleet, grid, outcomes);
      !r.acted ==> r.fleet == fleet
  {
  }

  /** The fleet is commanded exactly when the mode changes or the power moves by more than half the minimum. */
  lemma CycleActsOnSignificantChange(c: ControlState, t: Tuning, fleet: seq<UnitState>, g: real, outcomes: seq<WriteOutcome>)
    requires |outcomes| == |fleet|
    ensures var d := Decide(g, AverageSoc(fleet), c.mode, c.power, MaxTotalCharge(fleet, t), MaxTotalDischarge(fleet, t), t);
      var l := RateLimit(d.mode, d.power, c.mode, c.power);
      Cycle(c, t, fleet, Some(g), outcomes).acted <==> l.mode != c.mode || Abs(l.power - c.power) > t.minPowerPerUnit / 2.0
  {
  }

  /** A committed stop leaves every unit stopped and the fleet delivering nothing. */
  lemma CommittedStopStopsFleet(c: ControlState, t: Tuning, fleet: seq<UnitState>, grid: Option<real>, outcomes: seq<WriteOutcome>)
    requires |outcomes| == |fleet|
    requires var r := Cycle(c, t, fleet, grid, outcomes); r.acted && r.ok && r.ctrl.mode == Stopped
    ensures var r := Cycle(c, t, fleet, grid, outcomes);
      (forall j :: 0 <= j < |r.fleet| ==> r.fleet[j].mode == Stopped) && TotalPower(r.fleet) == 0.0
  {
    var r := Cycle(c, t, fleet, grid, outcomes);
    StopAllStopsEverything(fleet, outcomes);
  }

  /**
   * When no unit has reported a SoC, the average SoC falls back to 50 %, no
   * unit is eligible and the largest dischargeable total is 0 W; a large
   * import then makes a stopped controller decide to discharge at 0 W, the
   * distribution stops every unit, and the controller commits "discharging
   * at 0 W" while the whole fleet is stopped.
   */
  lemma UnknownSocFleetCommitsZeroDischarge(t: Tuning, fleet: seq<UnitState>, g: real, outcomes: seq<WriteOutcome>)
    requires |outcomes| == |fleet| && |fleet| > 0 && TuningOk(t)
    requires forall j :: 0 <= j < |fleet| ==> fleet[j].soc.None? && outcomes[j] == Written
    requires t.minSocDischarge < 50.0 && t.targetCharge - StartThreshold <= g
    requires g > t.targetDischarge + StartThreshold && g - t.targetDischarge >= t.minPowerPerUnit
    ensures var r := Cycle(InitialControl, t, fleet, Some(g), outcomes);
      && r.ok && r.ctrl.mode == Discharging && r.ctrl.power == 0.0
      && (forall j :: 0 <= j < |r.fleet| ==> r.fleet[j].mode == Stopped)
  {
    assert AllSocUnknown(fleet);
    assert AverageSoc(fleet) == 50.0;
    var dmask := EligibleMask(fleet, Discharging, t.minSocDischarge, t.maxSocCharge);
    var cmask := EligibleMask(fleet, Charging, t.minSocDischarge, t.maxSocCharge);
    CountTrueZero(dmask);
    CountTrueZero(cmask);
    assert MaxTotalDischarge(fleet, t) == 0.0;
    StopAllStopsEverything(fleet, outcomes);
  }

  // ---------------------------------------------------------------------
  // The controller object
  // ---------------------------------------------------------------------

  class ZeroFeedController {
    const meter: Meter.MeterClient
    const batteries: BatteryManager
    var targetGridPowerCharge: real
    var targetGridPowerDischarge: real
    var maxPowerPerBattery: real
    var minPowerPerBattery: real
    var minSocDischarge: real
    var maxSocCharge: real
    var currentMode: Mode
    var currentTotalPower: real
    var lastGridPower: real
    var modeChangeCount: nat

    function Settings(): Tuning
      reads this
    {
      Tuning(targetGridPowerCharge, targetGridPowerDischarge, maxPowerPerBattery, minPowerPerBattery,
             minSocDischarge, maxSocCharge)
    }

    function Control(): ControlState
      reads this
    {
      ControlState(currentMode, currentTotalPower, lastGridPower, modeChangeCount)
    }

    predicate Valid()
      reads this, meter
    {
      meter.Valid() && batteries.Valid()
    }

    constructor (meter: Meter.MeterClient, batteries: BatteryManager, t: Tuning)
      requires meter.Valid() && batteries.Valid()
      ensures this.meter == meter && this.batteries == batteries
      ensures Valid() && Settings() == t && Control() == InitialControl
    {
      this.meter := meter;
      this.batteries := batteries;
      targetGridPowerCharge := t.targetCharge;
      targetGridPowerDischarge := t.targetDischarge;
      maxPowerPerBattery := t.maxPowerPerUnit;
      minPowerPerBattery := t.minPowerPerUnit;
      minSocDischarge := t.minSocDischarge;
      maxSocCharge := t.maxSocCharge;
      currentMode := Stopped;
      currentTotalPower := 0.0;
      lastGridPower := 0.0;
      modeChangeCount := 0;
    }

    /** `_count_available_batteries_for_charging` / `_for_discharging`. */
    method CountAvailable(mode: Mode) returns (count: nat)
      ensures count == UnitsFor(batteries.Fleet(), mode, Settings())
    {
      var units := batteries.units;
      ghost var fleet := batteries.Fleet();
      count := 0;
      var i := 0;
      while i < |units|
        invariant 0 <= i <= |units|
        invariant count == CountTrue(EligibleMask(fleet[..i], mode, minSocDischarge, maxSocCharge))
      {
        var mask := EligibleMask(fleet[..i + 1], mode, minSocDischarge, maxSocCharge);
        assert mask[..i] == EligibleMask(fleet[..i], mode, minSocDischarge, maxSocCharge);
        var soc := units[i].lastSoc;
        if soc.Some? && (if mode == Charging then soc.value < maxSocCharge
                         else mode == Discharging && soc.value > minSocDischarge) {
          count := count + 1;
        }
        i := i + 1;
      }
      assert fleet[..i] == fleet;
    }

    /** `_get_max_total_charge_power`. */
    method MaxTotalChargePower() returns (total: real)
      ensures total == MaxTotalCharge(batteries.Fleet(), Settings())
    {
      var count := CountAvailable(Charging);
      total := count as real * maxPowerPerBattery;
    }

    /** `_get_max_total_discharge_power`. */
    method MaxTotalDischargePower() returns (total: real)
      ensures total == MaxTotalDischarge(batteries.Fleet(), Settings())
    {
      var count := CountAvailable(Discharging);
      total := count as real * maxPowerPerBattery;
    }

    /** `_execute_battery_control`. */
    method ExecuteBatteryControl(mode: Mode, totalPower: real, outcomes: seq<WriteOutcome>) returns (ok: bool)
      requires batteries.Valid() && |outcomes| == |batteries.units|
      modifies batteries.units
      ensures batteries.Fleet() == Actuate(old(batteries.Fleet()), mode, totalPower, Settings(), outcomes).fleet
      ensures ok == Actuate(old(batteries.Fleet()), mode, totalPower, Settings(), outcomes).ok
    {
      if mode == Stopped {
        ok := batteries.StopAll(outcomes);
        return;
      }
      ok := batteries.DistributePower(Abs(totalPower), mode, minSocDischarge, maxSocCharge, outcomes);
    }

    /**
     * `execute_control_cycle`: polls the meter with `response` at `now`; the
     * fleet's answers to the commands are `outcomes`, one per unit.
     */
    method ExecuteControlCycle(response: Option<Json>, now: real, outcomes: seq<WriteOutcome>) returns (ok: bool)
      requires Valid() && |outcomes| == |batteries.units|
      modifies this, meter, batteries.units
      ensures Valid() && Settings() == old(Settings())
      ensures meter.Snapshot() == Meter.AfterPoll(old(meter.Snapshot()), meter.kind, response, now)
      ensures var r := Cycle(old(Control()), Settings(), old(batteries.Fleet()), Meter.PollResult(meter.kind, response), outcomes);
        Control() == r.ctrl && batteries.Fleet() == r.fleet && ok == r.ok
    {
      var grid := meter.GetCurrentPowerDirect(response, now);
      if grid.None? {
        return false;
      }
      ok := RegulateWith(grid.value, outcomes);
    }

    /** The decision step of `execute_control_cycle`: decide from the fleet's state, then rate-limit. */
    method PlanCycle(g: real) returns (limited: Limited)
      requires batteries.Valid()
      ensures limited == Plan(Control(), Settings(), batteries.Fleet(), g)
    {
      var avgSoc := batteries.GetAverageSoc();
      var maxCharge := MaxTotalChargePower();
      var maxDischarge := MaxTotalDischargePower();
      var decision := Decide(g, avgSoc, currentMode, currentTotalPower, maxCharge, maxDischarge, Settings());
      limited := RateLimit(decision.mode, decision.power, currentMode, currentTotalPower);
    }

    /** The part of `execute_control_cycle` after a successful meter poll. */
    method RegulateWith(g: real, outcomes: seq<WriteOutcome>) returns (ok: bool)
      requires batteries.Valid() && |outcomes| == |batteries.units|
      modifies this, batteries.units
      ensures Settings() == old(Settings())
      ensures var r := Regulate(old(Control()), Settings(), old(batteries.Fleet()), g, outcomes);
        Control() == r.ctrl && batteries.Fleet() == r.fleet && ok == r.ok
    {
      var limited := PlanCycle(g);
      ok := CommitPlan(g, limited, outcomes);
    }

    /** The actuation step of `execute_control_cycle`: command the fleet when the change is significant. */
    method CommitPlan(g: real, limited: Limited, outcomes: seq<WriteOutcome>) returns (ok: bool)
      requires batteries.Valid() && |outcomes| == |batteries.units|
      modifies this, batteries.units
      ensures Settings() == old(Settings())
      ensures var r := Commit(old(Control()), Settings(), old(batteries.Fleet()), g, limited, outcomes);
        Control() == r.ctrl && batteries.Fleet() == r.fleet && ok == r.ok
    {
      ghost var f0 := batteries.Fleet();
      ghost var t := Settings();
      var modeChanged := limited.mode != currentMode;
      var significant := Abs(limited.power - currentTotalPower) > minPowerPerBattery / 2.0;
      if modeChanged || significant {
        var done := ExecuteBatteryControl(limited.mode, limited.power, outcomes);
        ghost var act := Actuate(f0, limited.mode, limited.power, t, outcomes);
        assert batteries.Fleet() == act.fleet && done == act.ok;
        if !done {
          return false;
        }
        if modeChanged {
          modeChangeCount := modeChangeCount + 1;
        }
        currentMode := limited.mode;
        currentTotalPower := limited.power;
      }
      lastGridPower := g;
      ok := true;
    }

    /** `reset_statistics`. */
    method ResetStatistics()
      modifies this
      ensures Control() == old(Control()).(modeChanges := 0)
      ensures Settings() == old(Settings())
    {
      modeChangeCount := 0;
    }
  }
}
