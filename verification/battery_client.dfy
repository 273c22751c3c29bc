/**
 * One Modbus battery unit (`BatteryClient`) and the fleet of units behind one
 * Modbus gateway (`BatteryManager`). What a Modbus exchange answers is an
 * oracle: every operation that talks to a unit takes the outcome of that
 * exchange as a parameter, and the model states what the unit's bookkeeping
 * becomes for each outcome.
 */
module Battery {
  import opened Wrappers
  import opened Stats

  /** The operating mode, written to the unit as 0 (stop), 1 (charge) or 2 (discharge). */
  datatype Mode = Stopped | Charging | Discharging

  /** The per-unit power limits `set_power` clamps to, in watts. */
  const MinUnitPower: real := 50.0
  const MaxUnitPower: real := 2500.0

  /** How a `set_power` exchange with a unit ended. */
  datatype WriteOutcome =
    | NoConnection     // the TCP connection could not be opened
    | ControlRejected  // the unit answered the RS485-control write with an error
    | WriteRaised      // an exception was raised during the exchange
    | Written          // the exchange completed and `set_power` returned True

  /** How a SoC register read ended; a register holds an unsigned 16-bit value. */
  datatype ReadOutcome =
    | ReadNoConnection
    | ReadRejected
    | ReadRaised
    | Register(raw: int)

  /** The bookkeeping a `BatteryClient` keeps about its unit. */
  datatype UnitState = UnitState(power: real, mode: Mode, soc: Option<real>, errors: nat, lastActive: Mode)

  const InitialUnit: UnitState := UnitState(0.0, Stopped, None, 0, Stopped)

  /** The invariant every reachable unit state satisfies. */
  predicate UnitOk(u: UnitState) {
    && (u.power == 0.0 || MinUnitPower <= u.power <= MaxUnitPower)
    && (u.mode == Stopped ==> u.power == 0.0)
    && (u.soc.Some? ==> 0.0 <= u.soc.value <= 100.0)
    && (u.mode != Stopped ==> u.lastActive == u.mode)
  }

  // ---------------------------------------------------------------------
  // Power rounding
  // ---------------------------------------------------------------------

  /** Python's `round` on a float: to the nearest integer, ties to the even one. */
  function RoundHalfEven(x: real): (r: real)
    ensures r == r.Floor as real
    ensures x - 0.5 <= r <= x + 0.5
    ensures (r - x == 0.5 || x - r == 0.5) ==> r.Floor % 2 == 0
  {
    var f := x.Floor;
    var frac := x - f as real;
    if frac < 0.5 then f as real
    else if frac > 0.5 then (f + 1) as real
    else if f % 2 == 0 then f as real
    else (f + 1) as real
  }

  /**
   * The power a unit is actually commanded with: a positive request is
   * clamped to 50..2500 W and rounded to whole watts, anything else is 0.
   */
  function DevicePower(power: real): (r: real)
    ensures power <= 0.0 ==> r == 0.0
    ensures power > 0.0 ==> MinUnitPower <= r <= MaxUnitPower && r == r.Floor as real
    ensures 0.0 < power <= MinUnitPower ==> r == MinUnitPower
    ensures power >= MaxUnitPower ==> r == MaxUnitPower
    ensures MinUnitPower <= power <= MaxUnitPower ==> power - 0.5 <= r <= power + 0.5
    ensures MinUnitPower <= power <= MaxUnitPower && (r - power == 0.5 || power - r == 0.5) ==> r.Floor % 2 == 0
  {
    if power > 0.0 then
      var clamped := if power < MinUnitPower then MinUnitPower else if power > MaxUnitPower then MaxUnitPower else power;
      var r := RoundHalfEven(clamped);
      assert r.Floor >= 50 by {
        assert r >= clamped - 0.5 >= 49.5;
      }
      assert r.Floor <= 2500 by {
        assert r <= clamped + 0.5 <= 2500.5;
      }
      r
    else 0.0
  }

  // ---------------------------------------------------------------------
  // One unit
  // ---------------------------------------------------------------------

  /**
   * The unit's bookkeeping after `set_power(power, mode)` ended with
   * `outcome`: a refused connection or an exception counts an error, a
   * rejected control write changes nothing, and a completed exchange records
   * the mode and commanded power and forgives one error.
   */
  function AfterSetPower(u: UnitState, power: real, mode: Mode, outcome: WriteOutcome): UnitState {
    match outcome
    case NoConnection => u.(errors := u.errors + 1)
    case ControlRejected => u
    case WriteRaised => u.(errors := u.errors + 1)
    case Written =>
      UnitState(
        if mode != Stopped then DevicePower(power) else 0.0,
        mode,
        u.soc,
        if u.errors > 0 then u.errors - 1 else 0,
        if mode != Stopped then mode else u.lastActive)
  }

  /** What `read_soc` returns for an exchange outcome: only a plausible 0..100 register value. */
  function SocReading(outcome: ReadOutcome): (r: Option<real>)
    ensures r.Some? <==> outcome.Register? && 0 <= outcome.raw <= 100
    ensures r.Some? ==> r.value == outcome.raw as real
  {
    match outcome
    case Register(raw) => if 0 <= raw <= 100 then Some(raw as real) else None
    case _ => None
  }

  /**
   * The unit's bookkeeping after `read_soc`: a plausible reading replaces the
   * last SoC and forgives one error, an implausible one changes nothing, and
   * every failed exchange counts an error.
   */
  function AfterReadSoc(u: UnitState, outcome: ReadOutcome): UnitState {
    match outcome
    case Register(raw) =>
      if 0 <= raw <= 100 then u.(soc := Some(raw as real), errors := if u.errors > 0 then u.errors - 1 else 0)
      else u
    case _ => u.(errors := u.errors + 1)
  }

  /** A completed `set_power` leaves the unit in the requested mode at the commanded power. */
  lemma SetPowerRecordsCommand(u: UnitState, power: real, mode: Mode, outcome: WriteOutcome)
    ensures var v := AfterSetPower(u, power, mode, outcome);
      && (outcome == Written ==> v.mode == mode && v.soc == u.soc)
      && (outcome == Written && mode != Stopped ==> v.power == DevicePower(power) && v.lastActive == mode)
      && (outcome == Written && mode == Stopped ==> v.power == 0.0 && v.lastActive == u.lastActive)
      && (outcome == Written ==> v.errors == if u.errors > 0 then u.errors - 1 else 0)
      && (outcome != Written ==> v.power == u.power && v.mode == u.mode && v.soc == u.soc)
      && (outcome != Written ==> v.lastActive == u.lastActive)
      && (outcome == NoConnection || outcome == WriteRaised ==> v.errors == u.errors + 1)
      && (outcome == ControlRejected ==> v == u)
  {
  }

  /** Both unit operations keep the unit invariant. */
  lemma UnitOperationsKeepUnitOk(u: UnitState, power: real, mode: Mode, w: WriteOutcome, r: ReadOutcome)
    requires UnitOk(u)
    ensures UnitOk(AfterSetPower(u, power, mode, w))
    ensures UnitOk(AfterReadSoc(u, r))
  {
  }

  /** The SoC a unit records is the value `read_soc` returns, when it returns one. */
  lemma ReadSocRecordsReading(u: UnitState, outcome: ReadOutcome)
    ensures SocReading(outcome).Some? ==> AfterReadSoc(u, outcome).soc == SocReading(outcome)
    ensures SocReading(outcome).None? ==> AfterReadSoc(u, outcome).soc == u.soc
    ensures SocReading(outcome).Some? ==>
      AfterReadSoc(u, outcome).errors == if u.errors > 0 then u.errors - 1 else 0
    ensures outcome.Register? && !(0 <= outcome.raw <= 100) ==> AfterReadSoc(u, outcome) == u
    ensures !outcome.Register? ==> AfterReadSoc(u, outcome).errors == u.errors + 1
  {
  }

  /** `BatteryClient`: one unit addressed by its Modbus slave id. */
  class BatteryClient {
    const slaveId: int
    var currentPower: real
    var currentMode: Mode
    var lastSoc: Option<real>
    var errorCount: nat
    var lastActiveMode: Mode

    function State(): UnitState
      reads this
    {
      UnitState(currentPower, currentMode, lastSoc, errorCount, lastActiveMode)
    }

    constructor (slaveId: int)
      ensures this.slaveId == slaveId
      ensures State() == InitialUnit
    {
      this.slaveId := slaveId;
      currentPower := 0.0;
      currentMode := Stopped;
      lastSoc := None;
      errorCount := 0;
      lastActiveMode := Stopped;
    }

    /** `read_soc`: reads the SoC register and keeps a plausible value. */
    method ReadSoc(outcome: ReadOutcome) returns (soc: Option<real>)
      modifies this
      ensures soc == SocReading(outcome)
      ensures State() == AfterReadSoc(old(State()), outcome)
    {
      match outcome {
        case Register(raw) =>
          if 0 <= raw <= 100 {
            lastSoc := Some(raw as real);
            errorCount := if errorCount > 0 then errorCount - 1 else 0;
            soc := lastSoc;
          } else {
            soc := None;
          }
        case _ =>
          errorCount := errorCount + 1;
          soc := None;
      }
    }

    /** `set_power`: commands the unit with a mode and a power; true when the exchange completed. */
    method SetPower(power: real, mode: Mode, outcome: WriteOutcome) returns (ok: bool)
      modifies this
      ensures ok <==> outcome == Written
      ensures State() == AfterSetPower(old(State()), power, mode, outcome)
    {
      if outcome == NoConnection {
        errorCount := errorCount + 1;
        return false;
      }
      if outcome == ControlRejected {
        return false;
      }
      if outcome == WriteRaised {
        errorCount := errorCount + 1;
        return false;
      }
      var commanded := DevicePower(power);
      currentMode := mode;
      currentPower := if mode != Stopped then commanded else 0.0;
      if mode != Stopped {
        lastActiveMode := mode;
      }
      errorCount := if errorCount > 0 then errorCount - 1 else 0;
      ok := true;
    }

    /** `stop`: commands mode 0 at 0 W. */
    method Stop(outcome: WriteOutcome) returns (ok: bool)
      modifies this
      ensures ok <==> outcome == Written
      ensures State() == AfterSetPower(old(State()), 0.0, Stopped, outcome)
    {
      ok := SetPower(0.0, Stopped, outcome);
    }

    /** `reset_error_count`. */
    method ResetErrorCount()
      modifies this
      ensures State() == old(State()).(errors := 0)
    {
      errorCount := 0;
    }
  }

  // ---------------------------------------------------------------------
  // The fleet, as values
  // ---------------------------------------------------------------------

  /** Whether a unit may take part in a dispatch in `mode`: its SoC is known and inside the limit. */
  predicate Eligible(u: UnitState, mode: Mode, minSoc: real, maxSoc: real) {
    && u.soc.Some?
    && match mode
       case Charging => u.soc.value < maxSoc
       case Discharging => u.soc.value > minSoc
       case Stopped => false
  }

  function EligibleMask(fleet: seq<UnitState>, mode: Mode, minSoc: real, maxSoc: real): (m: seq<bool>)
    ensures |m| == |fleet|
    ensures forall j :: 0 <= j < |fleet| ==> m[j] == Eligible(fleet[j], mode, minSoc, maxSoc)
  {
    seq(|fleet|, j requires 0 <= j < |fleet| => Eligible(fleet[j], mode, minSoc, maxSoc))
  }

  /** The number of set entries. */
  function CountTrue(m: seq<bool>): nat {
    if m == [] then 0 else CountTrue(m[..|m| - 1]) + (if m[|m| - 1] then 1 else 0)
  }

  lemma {:induction false} CountTrueZero(m: seq<bool>)
    ensures CountTrue(m) == 0 <==> forall j :: 0 <= j < |m| ==> !m[j]
  {
    if m != [] {
      CountTrueZero(m[..|m| - 1]);
    }
  }

  lemma {:induction false} CountTrueBounded(m: seq<bool>)
    ensures CountTrue(m) <= |m|
  {
    if m != [] {
      CountTrueBounded(m[..|m| - 1]);
    }
  }

  lemma {:induction false} CountTrueAll(m: seq<bool>)
    ensures CountTrue(m) == |m| <==> forall j :: 0 <= j < |m| ==> m[j]
  {
    if m != [] {
      CountTrueAll(m[..|m| - 1]);
      CountTrueBounded(m[..|m| - 1]);
    }
  }

  /** The units that an exchange reached in full, among those selected by `mask`. */
  function WrittenAmong(mask: seq<bool>, outcomes: seq<WriteOutcome>): (m: seq<bool>)
    requires |mask| == |outcomes|
    ensures |m| == |mask|
    ensures forall j :: 0 <= j < |m| ==> m[j] == (mask[j] && outcomes[j] == Written)
  {
    seq(|mask|, j requires 0 <= j < |mask| => mask[j] && outcomes[j] == Written)
  }

  function AllTrue(n: nat): (m: seq<bool>)
    ensures |m| == n && forall j :: 0 <= j < n ==> m[j]
  {
    seq(n, j => true)
  }

  /** The fleet and the returned flag after a fleet-wide operation. */
  datatype Dispatch = Dispatch(fleet: seq<UnitState>, ok: bool)

  predicate AllSocUnknown(fleet: seq<UnitState>) {
    forall j :: 0 <= j < |fleet| ==> fleet[j].soc.None?
  }

  /** `stop_all`: every unit is stopped; true only when every stop completed. */
  function StopAllResult(fleet: seq<UnitState>, outcomes: seq<WriteOutcome>): Dispatch
    requires |outcomes| == |fleet|
  {
    Dispatch(
      seq(|fleet|, j requires 0 <= j < |fleet| => AfterSetPower(fleet[j], 0.0, Stopped, outcomes[j])),
      CountTrue(WrittenAmong(AllTrue(|fleet|), outcomes)) == |fleet|)
  }

  /**
   * `distribute_power(total, mode, min_soc, max_soc)`: a stop request stops
   * everything; otherwise the eligible units share the total evenly and every
   * other unit is stopped. With no eligible unit the fleet is stopped when no
   * SoC at all is known, and left untouched (reporting failure) otherwise.
   * The result is true when at least one eligible unit took its share.
   */
  function Distribution(fleet: seq<UnitState>, total: real, mode: Mode, minSoc: real, maxSoc: real,
                        outcomes: seq<WriteOutcome>): Dispatch
    requires |outcomes| == |fleet|
  {
    if mode == Stopped then StopAllResult(fleet, outcomes)
    else
      var mask := EligibleMask(fleet, mode, minSoc, maxSoc);
      var n := CountTrue(mask);
      if n == 0 then
        if AllSocUnknown(fleet) then StopAllResult(fleet, outcomes) else Dispatch(fleet, false)
      else
        var share := total / n as real;
        Dispatch(
          seq(|fleet|, j requires 0 <= j < |fleet| =>
            if mask[j] then AfterSetPower(fleet[j], share, mode, outcomes[j])
            else AfterSetPower(fleet[j], 0.0, Stopped, outcomes[j])),
          CountTrue(WrittenAmong(mask, outcomes)) > 0)
  }

  /** Signed battery power: discharging counts positive, charging negative. */
  function SignedPower(u: UnitState): real {
    match u.mode
    case Discharging => u.power
    case Charging => -u.power
    case Stopped => 0.0
  }

  /** `get_total_power`. */
  function TotalPower(fleet: seq<UnitState>): real {
    if fleet == [] then 0.0 else TotalPower(fleet[..|fleet| - 1]) + SignedPower(fleet[|fleet| - 1])
  }

  /** The SoC values that are known, in fleet order. */
  function KnownSocs(fleet: seq<UnitState>): (s: seq<real>)
    ensures |s| <= |fleet|
    ensures |s| == 0 <==> AllSocUnknown(fleet)
  {
    if fleet == [] then []
    else
      var init := fleet[..|fleet| - 1];
      var last := fleet[|fleet| - 1];
      assert forall j :: 0 <= j < |init| ==> init[j] == fleet[j];
      KnownSocs(init) + (if last.soc.Some? then [last.soc.value] else [])
  }

  /** The known SoC values are exactly the SoC values the units report. */
  lemma {:induction false} KnownSocsAreReported(fleet: seq<UnitState>)
    ensures forall x :: x in KnownSocs(fleet) <==> exists j :: 0 <= j < |fleet| && fleet[j].soc == Some(x)
  {
    if fleet != [] {
      var init := fleet[..|fleet| - 1];
      KnownSocsAreReported(init);
      assert forall j :: 0 <= j < |init| ==> init[j] == fleet[j];
    }
  }

  /** `get_average_soc`: the mean of the known SoC values, 50 % when none is known. */
  function AverageSoc(fleet: seq<UnitState>): real {
    var socs := KnownSocs(fleet);
    if |socs| == 0 then 50.0 else Sum(socs) / |socs| as real
  }

  /** `get_min_max_soc`: the lowest and highest known SoC, or neither. */
  function MinMaxSoc(fleet: seq<UnitState>): (Option<real>, Option<real>) {
    var socs := KnownSocs(fleet);
    if |socs| == 0 then (None, None) else (Some(SeqMin(socs)), Some(SeqMax(socs)))
  }

  predicate NoDuplicates(s: seq<int>) {
    forall i, j :: 0 <= i < j < |s| ==> s[i] != s[j]
  }

  /**
   * The unit ids a dict keyed by id ends up with: each id once, at the
   * position of its first occurrence.
   */
  function Dedup(s: seq<int>): (d: seq<int>)
    ensures NoDuplicates(d)
    ensures forall x :: x in d <==> x in s
    ensures |d| <= |s|
  {
    if s == [] then []
    else
      var init := Dedup(s[..|s| - 1]);
      assert forall x :: x in s <==> x in s[..|s| - 1] || x == s[|s| - 1];
      if s[|s| - 1] in init then init else init + [s[|s| - 1]]
  }

  // ---------------------------------------------------------------------
  // Properties of the fleet operations
  // ---------------------------------------------------------------------

  /** A stop request is a full stop, and it reports success exactly when every unit acknowledged. */
  lemma StopAllStopsEverything(fleet: seq<UnitState>, outcomes: seq<WriteOutcome>)
    requires |outcomes| == |fleet|
    ensures var d := StopAllResult(fleet, outcomes);
      && |d.fleet| == |fleet|
      && (d.ok <==> forall j :: 0 <= j < |fleet| ==> outcomes[j] == Written)
      && (forall j :: 0 <= j < |fleet| && outcomes[j] == Written ==> d.fleet[j].mode == Stopped && d.fleet[j].power == 0.0)
      && (d.ok ==> TotalPower(d.fleet) == 0.0)
  {
    var d := StopAllResult(fleet, outcomes);
    var w := WrittenAmong(AllTrue(|fleet|), outcomes);
    CountTrueAll(w);
    if d.ok {
      AllStoppedTotalZero(d.fleet);
    }
  }

  /** A fleet in which every unit is stopped delivers no power. */
  lemma {:induction false} AllStoppedTotalZero(fleet: seq<UnitState>)
    requires forall j :: 0 <= j < |fleet| ==> fleet[j].mode == Stopped
    ensures TotalPower(fleet) == 0.0
  {
    if fleet != [] {
      AllStoppedTotalZero(fleet[..|fleet| - 1]);
    }
  }

  /** The fleet's signed power never exceeds the units' combined rating, either way. */
  lemma {:induction false} TotalPowerBounded(fleet: seq<UnitState>)
    requires forall j :: 0 <= j < |fleet| ==> UnitOk(fleet[j])
    ensures -(|fleet| as real) * MaxUnitPower <= TotalPower(fleet) <= |fleet| as real * MaxUnitPower
  {
    if fleet != [] {
      TotalPowerBounded(fleet[..|fleet| - 1]);
    }
  }

  /**
   * Units that are not eligible never run in the requested mode: each is
   * sent `stop()`, except when no unit is eligible while some SoC is known,
   * in which case it is left exactly as it was.
   */
  lemma IneligibleUnitsNeverDispatched(fleet: seq<UnitState>, total: real, mode: Mode, minSoc: real, maxSoc: real,
                                       outcomes: seq<WriteOutcome>, j: int)
    requires |outcomes| == |fleet| && 0 <= j < |fleet|
    requires !Eligible(fleet[j], mode, minSoc, maxSoc)
    ensures var u := Distribution(fleet, total, mode, minSoc, maxSoc, outcomes).fleet[j];
      (u.mode == Stopped && u.power == 0.0) || (u.mode == fleet[j].mode && u.power == fleet[j].power)
    ensures (mode == Stopped || AllSocUnknown(fleet) ||
             exists k :: 0 <= k < |fleet| && Eligible(fleet[k], mode, minSoc, maxSoc)) ==>
      Distribution(fleet, total, mode, minSoc, maxSoc, outcomes).fleet[j] == AfterSetPower(fleet[j], 0.0, Stopped, outcomes[j])
    ensures (mode != Stopped && !AllSocUnknown(fleet) &&
             forall k :: 0 <= k < |fleet| ==> !Eligible(fleet[k], mode, minSoc, maxSoc)) ==>
      Distribution(fleet, total, mode, minSoc, maxSoc, outcomes).fleet[j] == fleet[j]
  {
    CountTrueZero(EligibleMask(fleet, mode, minSoc, maxSoc));
  }

  /** In particular a unit whose SoC is unknown is never dispatched. */
  lemma UnknownSocNeverDispatched(fleet: seq<UnitState>, total: real, mode: Mode, minSoc: real, maxSoc: real,
                                  outcomes: seq<WriteOutcome>, j: int)
    requires |outcomes| == |fleet| && 0 <= j < |fleet|
    requires fleet[j].soc.None?
    requires mode != Stopped && mode != fleet[j].mode
    ensures Distribution(fleet, total, mode, minSoc, maxSoc, outcomes).fleet[j].mode != mode
  {
    IneligibleUnitsNeverDispatched(fleet, total, mode, minSoc, maxSoc, outcomes, j);
  }

  /**
   * A charge or discharge request splits the total evenly: every eligible
   * unit that acknowledged runs in the requested mode at the commanded
   * power of one equal share, and the request succeeds exactly when at
   * least one eligible unit acknowledged.
   */
  lemma DistributionSplitsEvenly(fleet: seq<UnitState>, total: real, mode: Mode, minSoc: real, maxSoc: real,
                                 outcomes: seq<WriteOutcome>)
    requires |outcomes| == |fleet| && mode != Stopped
    requires exists j :: 0 <= j < |fleet| && Eligible(fleet[j], mode, minSoc, maxSoc)
    ensures var n := CountTrue(EligibleMask(fleet, mode, minSoc, maxSoc));
      var d := Distribution(fleet, total, mode, minSoc, maxSoc, outcomes);
      && n > 0
      && (forall j :: 0 <= j < |fleet| && Eligible(fleet[j], mode, minSoc, maxSoc) && outcomes[j] == Written ==>
            d.fleet[j].mode == mode && d.fleet[j].power == DevicePower(total / n as real))
      && (d.ok <==> exists j :: 0 <= j < |fleet| && Eligible(fleet[j], mode, minSoc, maxSoc) && outcomes[j] == Written)
      && (d.ok ==> exists j :: 0 <= j < |fleet| && d.fleet[j].mode == mode)
  {
    var mask := EligibleMask(fleet, mode, minSoc, maxSoc);
    CountTrueZero(mask);
    CountTrueZero(WrittenAmong(mask, outcomes));
  }

  /**
   * With SoC values known but none inside the limit, a dispatch request
   * leaves every unit as it was and reports failure: running units are
   * not stopped.
   */
  lemma NoEligibleUnitLeavesFleet(fleet: seq<UnitState>, total: real, mode: Mode, minSoc: real, maxSoc: real,
                                  outcomes: seq<WriteOutcome>)
    requires |outcomes| == |fleet| && mode != Stopped
    requires forall j :: 0 <= j < |fleet| ==> !Eligible(fleet[j], mode, minSoc, maxSoc)
    requires exists j :: 0 <= j < |fleet| && fleet[j].soc.Some?
    ensures Distribution(fleet, total, mode, minSoc, maxSoc, outcomes) == Dispatch(fleet, false)
  {
    CountTrueZero(EligibleMask(fleet, mode, minSoc, maxSoc));
  }

  /** Dispatching keeps every unit's invariant. */
  lemma DistributionKeepsUnitOk(fleet: seq<UnitState>, total: real, mode: Mode, minSoc: real, maxSoc: real,
                                outcomes: seq<WriteOutcome>)
    requires |outcomes| == |fleet|
    requires forall j :: 0 <= j < |fleet| ==> UnitOk(fleet[j])
    ensures var d := Distribution(fleet, total, mode, minSoc, maxSoc, outcomes);
      |d.fleet| == |fleet| && forall j :: 0 <= j < |fleet| ==> UnitOk(d.fleet[j])
  {
  }

  /** The average SoC lies between the lowest and the highest known SoC. */
  lemma AverageSocBetweenMinMax(fleet: seq<UnitState>)
    requires !AllSocUnknown(fleet)
    ensures var mm := MinMaxSoc(fleet);
      mm.0.Some? && mm.1.Some? && mm.0.value <= AverageSoc(fleet) <= mm.1.value
  {
    var socs := KnownSocs(fleet);
    MeanBetweenExtremes(socs);
  }

  /** With units that keep their invariant, the average SoC is a percentage. */
  lemma AverageSocIsPercentage(fleet: seq<UnitState>)
    requires forall j :: 0 <= j < |fleet| ==> UnitOk(fleet[j])
    ensures 0.0 <= AverageSoc(fleet) <= 100.0
    ensures AllSocUnknown(fleet) ==> AverageSoc(fleet) == 50.0
  {
    var socs := KnownSocs(fleet);
    if |socs| > 0 {
      KnownSocsAreReported(fleet);
      assert forall j :: 0 <= j < |socs| ==> 0.0 <= socs[j] <= 100.0 by {
        forall j | 0 <= j < |socs| ensures 0.0 <= socs[j] <= 100.0 {
          assert socs[j] in socs;
        }
      }
      MeanOfBounded(socs, 0.0, 100.0);
    }
  }

  /** The reported minimum and maximum are known SoC values that bound all the others. */
  lemma MinMaxSocBoundsKnown(fleet: seq<UnitState>)
    ensures var mm := MinMaxSoc(fleet);
      && (mm.0.None? <==> AllSocUnknown(fleet))
      && (mm.1.None? <==> AllSocUnknown(fleet))
      && (mm.0.Some? ==> exists j :: 0 <= j < |fleet| && fleet[j].soc == mm.0)
      && (mm.1.Some? ==> exists j :: 0 <= j < |fleet| && fleet[j].soc == mm.1)
      && (forall j :: 0 <= j < |fleet| && fleet[j].soc.Some? ==>
            mm.0.value <= fleet[j].soc.value <= mm.1.value)
  {
    var socs := KnownSocs(fleet);
    KnownSocsAreReported(fleet);
    forall j | 0 <= j < |fleet| && fleet[j].soc.Some?
      ensures MinMaxSoc(fleet).0.value <= fleet[j].soc.value <= MinMaxSoc(fleet).1.value
    {
      var x := fleet[j].soc.value;
      assert x in socs;
      var k :| 0 <= k < |socs| && socs[k] == x;
    }
  }

  // ---------------------------------------------------------------------
  // The manager object
  // ---------------------------------------------------------------------

  /** `BatteryManager`: the units of one gateway, in the order their ids were first listed. */
  class BatteryManager {
    const units: seq<BatteryClient>

    /** The unit ids, which key the manager's dict. */
    function Ids(): seq<int> {
      seq(|units|, j requires 0 <= j < |units| => units[j].slaveId)
    }

    predicate Valid() {
      && NoDuplicates(Ids())
      && forall i, j :: 0 <= i < j < |units| ==> units[i] != units[j]
    }

    function Fleet(): (f: seq<UnitState>)
      reads units
      ensures |f| == |units|
      ensures forall j :: 0 <= j < |units| ==> f[j] == units[j].State()
    {
      seq(|units|, j requires 0 <= j < |units| reads units => units[j].State())
    }

    /** Creates one client per distinct id; a repeated id keeps its first position. */
    constructor (akkuIds: seq<int>)
      ensures Ids() == Dedup(akkuIds)
      ensures Valid()
      ensures forall j :: 0 <= j < |units| ==> fresh(units[j]) && units[j].State() == InitialUnit
    {
      var built: seq<BatteryClient> := [];
      var ids: seq<int> := [];
      var i := 0;
      while i < |akkuIds|
        invariant 0 <= i <= |akkuIds|
        invariant ids == Dedup(akkuIds[..i])
        invariant |built| == |ids|
        invariant forall j :: 0 <= j < |built| ==> built[j].slaveId == ids[j]
        invariant forall j :: 0 <= j < |built| ==> fresh(built[j]) && built[j].State() == InitialUnit
      {
        assert akkuIds[..i + 1][..i] == akkuIds[..i];
        if akkuIds[i] !in ids {
          var unit := new BatteryClient(akkuIds[i]);
          built := built + [unit];
          ids := ids + [akkuIds[i]];
        }
        i := i + 1;
      }
      assert akkuIds[..i] == akkuIds;
      units := built;
      new;
      assert Ids() == ids;
    }

    /** `update_all_soc`: reads every unit's SoC; the result lists the readings in unit order. */
    method UpdateAllSoc(readings: seq<ReadOutcome>) returns (socs: seq<Option<real>>)
      requires Valid() && |readings| == |units|
      modifies units
      ensures |socs| == |units|
      ensures forall j :: 0 <= j < |units| ==> socs[j] == SocReading(readings[j])
      ensures forall j :: 0 <= j < |units| ==> units[j].State() == AfterReadSoc(old(units[j].State()), readings[j])
    {
      socs := [];
      var i := 0;
      while i < |units|
        invariant 0 <= i <= |units|
        invariant |socs| == i
        invariant forall j :: 0 <= j < i ==> socs[j] == SocReading(readings[j])
        invariant forall j :: 0 <= j < i ==> units[j].State() == AfterReadSoc(old(units[j].State()), readings[j])
        invariant forall j :: i <= j < |units| ==> units[j].State() == old(units[j].State())
      {
        var soc := units[i].ReadSoc(readings[i]);
        socs := socs + [soc];
        i := i + 1;
      }
    }

    /** `stop_all`: stops every unit; true when every unit acknowledged. */
    method StopAll(outcomes: seq<WriteOutcome>) returns (ok: bool)
      requires Valid() && |outcomes| == |units|
      modifies units
      ensures Fleet() == StopAllResult(old(Fleet()), outcomes).fleet
      ensures ok == StopAllResult(old(Fleet()), outcomes).ok
    {
      ghost var before := Fleet();
      var successCount := 0;
      var i := 0;
      while i < |units|
        invariant 0 <= i <= |units|
        invariant successCount == CountTrue(WrittenAmong(AllTrue(|units|), outcomes)[..i])
        invariant forall j :: 0 <= j < i ==> units[j].State() == AfterSetPower(before[j], 0.0, Stopped, outcomes[j])
        invariant forall j :: i <= j < |units| ==> units[j].State() == before[j]
      {
        var stopped := units[i].Stop(outcomes[i]);
        assert WrittenAmong(AllTrue(|units|), outcomes)[..i + 1][..i] == WrittenAmong(AllTrue(|units|), outcomes)[..i];
        if stopped {
          successCount := successCount + 1;
        }
        i := i + 1;
      }
      assert WrittenAmong(AllTrue(|units|), outcomes)[..i] == WrittenAmong(AllTrue(|units|), outcomes);
      ok := successCount == |units|;
    }

    /** The eligibility pass of `distribute_power`: which units may take a share, and how many. */
    method SelectEligible(mode: Mode, minSoc: real, maxSoc: real) returns (available: seq<bool>, count: nat)
      ensures available == EligibleMask(Fleet(), mode, minSoc, maxSoc)
      ensures count == CountTrue(available)
    {
      available := [];
      count := 0;
      var i := 0;
      while i < |units|
        invariant 0 <= i <= |units|
        invariant available == EligibleMask(Fleet()[..i], mode, minSoc, maxSoc)
        invariant count == CountTrue(available)
      {
        assert EligibleMask(Fleet()[..i + 1], mode, minSoc, maxSoc)[..i] == available;
        var eligible := Eligible(units[i].State(), mode, minSoc, maxSoc);
        assert (available + [eligible])[..i] == available;
        available := available + [eligible];
        if eligible {
          count := count + 1;
        }
        i := i + 1;
      }
      assert Fleet()[..i] == Fleet();
    }

    /** Stops every unit that is not selected. */
    method StopUnselected(selected: seq<bool>, outcomes: seq<WriteOutcome>)
      requires Valid() && |selected| == |units| && |outcomes| == |units|
      modifies units
      ensures forall j :: 0 <= j < |units| ==>
        units[j].State() == (if selected[j] then old(units[j].State()) else AfterSetPower(old(units[j].State()), 0.0, Stopped, outcomes[j]))
    {
      var i := 0;
      while i < |units|
        invariant 0 <= i <= |units|
        invariant forall j :: 0 <= j < i ==>
          units[j].State() == (if selected[j] then old(units[j].State()) else AfterSetPower(old(units[j].State()), 0.0, Stopped, outcomes[j]))
        invariant forall j :: i <= j < |units| ==> units[j].State() == old(units[j].State())
      {
        if !selected[i] {
          var _ := units[i].Stop(outcomes[i]);
        }
        i := i + 1;
      }
    }

    /** Commands every selected unit with `share` in `mode`, counting the acknowledgements. */
    method CommandSelected(selected: seq<bool>, share: real, mode: Mode, outcomes: seq<WriteOutcome>)
      returns (successCount: nat)
      requires Valid() && |selected| == |units| && |outcomes| == |units|
      modifies units
      ensures successCount == CountTrue(WrittenAmong(selected, outcomes))
      ensures forall j :: 0 <= j < |units| ==>
        units[j].State() == (if selected[j] then AfterSetPower(old(units[j].State()), share, mode, outcomes[j]) else old(units[j].State()))
    {
      successCount := 0;
      var i := 0;
      while i < |units|
        invariant 0 <= i <= |units|
        invariant successCount == CountTrue(WrittenAmong(selected, outcomes)[..i])
        invariant forall j :: 0 <= j < i ==>
          units[j].State() == (if selected[j] then AfterSetPower(old(units[j].State()), share, mode, outcomes[j]) else old(units[j].State()))
        invariant forall j :: i <= j < |units| ==> units[j].State() == old(units[j].State())
      {
        assert WrittenAmong(selected, outcomes)[..i + 1][..i] == WrittenAmong(selected, outcomes)[..i];
        if selected[i] {
          var done := units[i].SetPower(share, mode, outcomes[i]);
          if done {
            successCount := successCount + 1;
          }
        }
        i := i + 1;
      }
      assert WrittenAmong(selected, outcomes)[..i] == WrittenAmong(selected, outcomes);
    }

    /** `distribute_power`: see `Distribution`. */
    method DistributePower(totalPower: real, mode: Mode, minSoc: real, maxSoc: real, outcomes: seq<WriteOutcome>)
      returns (ok: bool)
      requires Valid() && |outcomes| == |units|
      modifies units
      ensures Fleet() == Distribution(old(Fleet()), totalPower, mode, minSoc, maxSoc, outcomes).fleet
      ensures ok == Distribution(old(Fleet()), totalPower, mode, minSoc, maxSoc, outcomes).ok
    {
      if mode == Stopped {
        ok := StopAll(outcomes);
        return;
      }
      var available, count := SelectEligible(mode, minSoc, maxSoc);
      if count == 0 {
        if AllSocUnknown(Fleet()) {
          ok := StopAll(outcomes);
        } else {
          ok := false;
        }
        return;
      }
      ghost var before := Fleet();
      var share := totalPower / count as real;
      StopUnselected(available, outcomes);
      var successCount := CommandSelected(available, share, mode, outcomes);
      ok := successCount > 0;
      ghost var target := Distribution(before, totalPower, mode, minSoc, maxSoc, outcomes).fleet;
      assert forall j :: 0 <= j < |units| ==> Fleet()[j] == target[j];
    }

    /** `get_total_power`. */
    method GetTotalPower() returns (total: real)
      ensures total == TotalPower(Fleet())
    {
      total := 0.0;
      var i := 0;
      while i < |units|
        invariant 0 <= i <= |units|
        invariant total == TotalPower(Fleet()[..i])
      {
        assert Fleet()[..i + 1][..i] == Fleet()[..i];
        var unit := units[i];
        if unit.currentMode == Discharging {
          total := total + unit.currentPower;
        } else if unit.currentMode == Charging {
          total := total - unit.currentPower;
        }
        i := i + 1;
      }
      assert Fleet()[..i] == Fleet();
    }

    /** Collects the known SoC values in unit order, as both SoC queries do. */
    method CollectKnownSocs() returns (values: seq<real>)
      ensures values == KnownSocs(Fleet())
    {
      values := [];
      var i := 0;
      while i < |units|
        invariant 0 <= i <= |units|
        invariant values == KnownSocs(Fleet()[..i])
      {
        assert Fleet()[..i + 1][..i] == Fleet()[..i];
        if units[i].lastSoc.Some? {
          values := values + [units[i].lastSoc.value];
        }
        i := i + 1;
      }
      assert Fleet()[..i] == Fleet();
    }

    /** `get_average_soc`. */
    method GetAverageSoc() returns (average: real)
      ensures average == AverageSoc(Fleet())
    {
      var values := CollectKnownSocs();
      if |values| == 0 {
        return 50.0;
      }
      average := Sum(values) / |values| as real;
    }

    /** `get_min_max_soc`. */
    method GetMinMaxSoc() returns (lowest: Option<real>, highest: Option<real>)
      ensures (lowest, highest) == MinMaxSoc(Fleet())
    {
      var values := CollectKnownSocs();
      if |values| == 0 {
        return None, None;
      }
      lowest := Some(SeqMin(values));
      highest := Some(SeqMax(values));
    }
  }
}
