/**
 * The main loop of the system (`MartekSystem.run_main_loop`): every second
 * it polls the meter, runs the control cycle and refreshes the batteries'
 * SoC, each on its own interval. A streak of failed meter polls is the
 * fail-safe: the fleet is stopped once, when the streak reaches its limit,
 * and the control cycle is held back while the streak is at or above it.
 */
module MainLoop {
  import opened Wrappers
  import opened JsonData
  import opened Battery
  import Meter
  import ZeroFeed

  /** The meter is polled every second. */
  const MeterPollInterval: real := 1.0
  /** `poll_interval_seconds` when the control section has none. */
  const DefaultControlInterval: real := 2.0
  /** `soc_update_interval_seconds` when the control section has none. */
  const DefaultSocInterval: real := 30.0
  /** `max_meter_failures` before the meter section is read. */
  const DefaultMaxMeterFailures: int := 2

  // ---------------------------------------------------------------------
  // The meter-failure streak
  // ---------------------------------------------------------------------

  /** The streak after one meter poll, and whether this poll stops the fleet. */
  datatype StreakStep = StreakStep(count: nat, stopAll: bool)

  /** A good poll ends the streak; a failed one extends it and stops the fleet when it reaches `limit`. */
  function FailureStep(count: nat, limit: int, pollOk: bool): StreakStep {
    if pollOk then StreakStep(0, false)
    else StreakStep(count + 1, count + 1 == limit)
  }

  // ---------------------------------------------------------------------
  // The three timers
  // ---------------------------------------------------------------------

  datatype Timer = MeterTimer | ControlTimer | SocTimer

  /** The control and SoC intervals, read from the control section. */
  datatype Intervals = Intervals(control: real, soc: real)

  /**
   * The intervals `run_main_loop` reads from the control section, with 2 s and
   * 30 s for missing keys. A value that is not a number would make the control
   * or SoC timer comparison raise on every iteration, so it yields `None`.
   */
  function ConfiguredIntervals(control: map<string, Json>): (r: Option<Intervals>)
    ensures "poll_interval_seconds" !in control && "soc_update_interval_seconds" !in control ==>
      r == Some(Intervals(DefaultControlInterval, DefaultSocInterval))
    ensures r.Some? <==>
      Numeric(FieldOr(control, "poll_interval_seconds", JInt(2))).Some? &&
      Numeric(FieldOr(control, "soc_update_interval_seconds", JInt(30))).Some?
    ensures r.Some? && "poll_interval_seconds" in control ==>
      Some(r.value.control) == Numeric(control["poll_interval_seconds"])
    ensures r.Some? && "poll_interval_seconds" !in control ==> r.value.control == DefaultControlInterval
    ensures r.Some? && "soc_update_interval_seconds" in control ==>
      Some(r.value.soc) == Numeric(control["soc_update_interval_seconds"])
    ensures r.Some? && "soc_update_interval_seconds" !in control ==> r.value.soc == DefaultSocInterval
  {
    var controlSeconds := Numeric(FieldOr(control, "poll_interval_seconds", JInt(2)));
    var socSeconds := Numeric(FieldOr(control, "soc_update_interval_seconds", JInt(30)));
    if controlSeconds.Some? && socSeconds.Some? then Some(Intervals(controlSeconds.value, socSeconds.value)) else None
  }

  /** The loop's locals: when each timer last fired, and the iteration count. */
  datatype Clock = Clock(lastMeterPoll: real, lastControl: real, lastSocUpdate: real, iteration: nat)

  const StartClock: Clock := Clock(0.0, 0.0, 0.0, 0)

  function Last(c: Clock, timer: Timer): real {
    match timer
    case MeterTimer => c.lastMeterPoll
    case ControlTimer => c.lastControl
    case SocTimer => c.lastSocUpdate
  }

  function Interval(iv: Intervals, timer: Timer): real {
    match timer
    case MeterTimer => MeterPollInterval
    case ControlTimer => iv.control
    case SocTimer => iv.soc
  }

  /** A timer fires when its interval has passed since it last fired. */
  predicate Fires(c: Clock, iv: Intervals, timer: Timer, now: real) {
    now - Last(c, timer) >= Interval(iv, timer)
  }

  function Fired(c: Clock, timer: Timer, now: real): Clock {
    match timer
    case MeterTimer => c.(lastMeterPoll := now)
    case ControlTimer => c.(lastControl := now)
    case SocTimer => c.(lastSocUpdate := now)
  }

  // ---------------------------------------------------------------------
  // One iteration, on values
  // ---------------------------------------------------------------------

  /** What the loop acts on: the meter, the fleet, the controller and the failure streak. */
  datatype SystemState = SystemState(
    meter: Meter.MeterState,
    fleet: seq<UnitState>,
    control: ZeroFeed.ControlState,
    meterFailures: nat)

  /** What stays fixed while the loop runs. */
  datatype Setup = Setup(kind: Meter.MeterKind, tuning: ZeroFeed.Tuning, maxFailures: int, intervals: Intervals)

  /**
   * What the outside world answers during one iteration: the time, the
   * loop's own meter poll, the fleet's answers to a fail-safe stop, the
   * controller's meter poll and the fleet's answers to its commands, the
   * SoC registers, and whether a termination signal arrives.
   */
  datatype TickInput = TickInput(
    now: real,
    meterResponse: Option<Json>,
    stopOutcomes: seq<WriteOutcome>,
    controlResponse: Option<Json>,
    controlOutcomes: seq<WriteOutcome>,
    socReadings: seq<ReadOutcome>,
    signal: bool)

  /** One answer per unit wherever the fleet is addressed. */
  predicate Fits(input: TickInput, units: nat) {
    |input.stopOutcomes| == units && |input.controlOutcomes| == units && |input.socReadings| == units
  }

  /** The fleet after `update_all_soc`. */
  function RefreshedFleet(fleet: seq<UnitState>, readings: seq<ReadOutcome>): (r: seq<UnitState>)
    requires |readings| == |fleet|
    ensures |r| == |fleet|
  {
    seq(|fleet|, j requires 0 <= j < |fleet| => AfterReadSoc(fleet[j], readings[j]))
  }

  /** The meter step: poll, then update the streak, stopping the fleet when the streak reaches the limit. */
  function MeterPhase(s: SystemState, kind: Meter.MeterKind, limit: int, input: TickInput): (r: SystemState)
    requires |input.stopOutcomes| == |s.fleet|
    ensures |r.fleet| == |s.fleet|
  {
    StreakPhase(s.(meter := Meter.AfterPoll(s.meter, kind, input.meterResponse, input.now)),
                Meter.PollResult(kind, input.meterResponse).Some?, limit, input.stopOutcomes)
  }

  /** The streak bookkeeping after a poll: count it, and stop the fleet when a failure reaches the limit. */
  function StreakPhase(s: SystemState, pollOk: bool, limit: int, stopOutcomes: seq<WriteOutcome>): (r: SystemState)
    requires |stopOutcomes| == |s.fleet|
    ensures |r.fleet| == |s.fleet|
  {
    var step := FailureStep(s.meterFailures, limit, pollOk);
    s.(meterFailures := step.count,
       fleet := if step.stopAll then StopAllResult(s.fleet, stopOutcomes).fleet else s.fleet)
  }

  /** The control step: a control cycle unless the streak is at or above the limit. */
  function ControlPhase(s: SystemState, kind: Meter.MeterKind, t: ZeroFeed.Tuning, limit: int, input: TickInput)
    : (r: SystemState)
    requires |input.controlOutcomes| == |s.fleet|
    ensures |r.fleet| == |s.fleet|
  {
    if s.meterFailures < limit then
      var grid := Meter.PollResult(kind, input.controlResponse);
      var cycle := ZeroFeed.Cycle(s.control, t, s.fleet, grid, input.controlOutcomes);
      s.(meter := Meter.AfterPoll(s.meter, kind, input.controlResponse, input.now),
         control := cycle.ctrl,
         fleet := cycle.fleet)
    else s
  }

  datatype LoopState = LoopState(sys: SystemState, clock: Clock)

  /** The streak once this iteration's meter step (if due) is done. */
  function StreakAfterPoll(l: LoopState, setup: Setup, input: TickInput): nat {
    if Fires(l.clock, setup.intervals, MeterTimer, input.now) then
      FailureStep(l.sys.meterFailures, setup.maxFailures,
                  Meter.PollResult(setup.kind, input.meterResponse).Some?).count
    else l.sys.meterFailures
  }

  /** Whether this iteration's meter step stops the fleet. */
  predicate StopFires(l: LoopState, setup: Setup, input: TickInput) {
    Fires(l.clock, setup.intervals, MeterTimer, input.now) &&
    FailureStep(l.sys.meterFailures, setup.maxFailures,
                Meter.PollResult(setup.kind, input.meterResponse).Some?).stopAll
  }

  /** One pass through the loop body: meter, control and SoC steps, each when its timer fires. */
  function Tick(l: LoopState, setup: Setup, input: TickInput): (r: LoopState)
    requires Fits(input, |l.sys.fleet|)
    ensures |r.sys.fleet| == |l.sys.fleet|
  {
    var l0 := l.(clock := l.clock.(iteration := l.clock.iteration + 1));
    SocStage(ControlStage(MeterStage(l0, setup, input), setup, input), setup, input)
  }

  /** The meter step of an iteration, when its timer fires. */
  function MeterStage(l: LoopState, setup: Setup, input: TickInput): (r: LoopState)
    requires Fits(input, |l.sys.fleet|)
    ensures |r.sys.fleet| == |l.sys.fleet|
  {
    if Fires(l.clock, setup.intervals, MeterTimer, input.now) then
      LoopState(MeterPhase(l.sys, setup.kind, setup.maxFailures, input), Fired(l.clock, MeterTimer, input.now))
    else l
  }

  /** The control step of an iteration, when its timer fires. */
  function ControlStage(l: LoopState, setup: Setup, input: TickInput): (r: LoopState)
    requires Fits(input, |l.sys.fleet|)
    ensures |r.sys.fleet| == |l.sys.fleet|
  {
    if Fires(l.clock, setup.intervals, ControlTimer, input.now) then
      LoopState(ControlPhase(l.sys, setup.kind, setup.tuning, setup.maxFailures, input),
                Fired(l.clock, ControlTimer, input.now))
    else l
  }

  /** The SoC step of an iteration, when its timer fires. */
  function SocStage(l: LoopState, setup: Setup, input: TickInput): (r: LoopState)
    requires Fits(input, |l.sys.fleet|)
    ensures |r.sys.fleet| == |l.sys.fleet|
  {
    if Fires(l.clock, setup.intervals, SocTimer, input.now) then
      LoopState(l.sys.(fleet := RefreshedFleet(l.sys.fleet, input.socReadings)), Fired(l.clock, SocTimer, input.now))
    else l
  }

  predicate AllFit(inputs: seq<TickInput>, units: nat) {
    forall i :: 0 <= i < |inputs| ==> Fits(inputs[i], units)
  }

  /** The loop state after the iterations `inputs`, in order. */
  function Run(l: LoopState, setup: Setup, inputs: seq<TickInput>): (r: LoopState)
    requires AllFit(inputs, |l.sys.fleet|)
    ensures |r.sys.fleet| == |l.sys.fleet|
    decreases |inputs|
  {
    if inputs == [] then l
    else
      var init := inputs[..|inputs| - 1];
      assert forall i :: 0 <= i < |init| ==> init[i] == inputs[i];
      Tick(Run(l, setup, init), setup, inputs[|inputs| - 1])
  }

  /** How many times the fleet was stopped by the fail-safe during `inputs`. */
  function Stops(l: LoopState, setup: Setup, inputs: seq<TickInput>): nat
    requires AllFit(inputs, |l.sys.fleet|)
    decreases |inputs|
  {
    if inputs == [] then 0
    else
      var init := inputs[..|inputs| - 1];
      assert forall i :: 0 <= i < |init| ==> init[i] == inputs[i];
      Stops(l, setup, init) + (if StopFires(Run(l, setup, init), setup, inputs[|inputs| - 1]) then 1 else 0)
  }

  /** How many meter polls were made during `inputs`. */
  function MeterPolls(l: LoopState, setup: Setup, inputs: seq<TickInput>): nat
    requires AllFit(inputs, |l.sys.fleet|)
    decreases |inputs|
  {
    if inputs == [] then 0
    else
      var init := inputs[..|inputs| - 1];
      assert forall i :: 0 <= i < |init| ==> init[i] == inputs[i];
      MeterPolls(l, setup, init) +
        (if Fires(Run(l, setup, init).clock, setup.intervals, MeterTimer, inputs[|inputs| - 1].now) then 1 else 0)
  }

  // ---------------------------------------------------------------------
  // Properties of the loop
  // ---------------------------------------------------------------------

  /** The streak only changes in the meter step: a good poll clears it, a failed one adds one. */
  lemma TickStreak(l: LoopState, setup: Setup, input: TickInput)
    requires Fits(input, |l.sys.fleet|)
    ensures Tick(l, setup, input).sys.meterFailures == StreakAfterPoll(l, setup, input)
    ensures Fires(l.clock, setup.intervals, MeterTimer, input.now) ==>
      if Meter.PollResult(setup.kind, input.meterResponse).Some? then StreakAfterPoll(l, setup, input) == 0
      else StreakAfterPoll(l, setup, input) == l.sys.meterFailures + 1
    ensures StopFires(l, setup, input) <==>
      Fires(l.clock, setup.intervals, MeterTimer, input.now) &&
      Meter.PollResult(setup.kind, input.meterResponse).None? &&
      l.sys.meterFailures + 1 == setup.maxFailures
  {
  }

  /**
   * While the streak (after this iteration's poll) is at or above the
   * limit, the controller neither polls the meter nor changes its state,
   * and the fleet is touched only by the fail-safe stop and the SoC refresh.
   */
  lemma OutageHoldsControl(l: LoopState, setup: Setup, input: TickInput)
    requires Fits(input, |l.sys.fleet|)
    requires StreakAfterPoll(l, setup, input) >= setup.maxFailures
    ensures var r := Tick(l, setup, input);
      var s1 := if Fires(l.clock, setup.intervals, MeterTimer, input.now) then MeterPhase(l.sys, setup.kind, setup.maxFailures, input) else l.sys;
      && r.sys.control == l.sys.control
      && r.sys.meter == s1.meter
      && r.sys.fleet == (if Fires(l.clock, setup.intervals, SocTimer, input.now)
                         then RefreshedFleet(s1.fleet, input.socReadings) else s1.fleet)
  {
  }

  /** Below the limit, a due control step runs exactly one control cycle on the state the meter step left. */
  lemma ControlRunsBelowLimit(l: LoopState, setup: Setup, input: TickInput)
    requires Fits(input, |l.sys.fleet|)
    requires StreakAfterPoll(l, setup, input) < setup.maxFailures
    requires Fires(l.clock, setup.intervals, ControlTimer, input.now)
    ensures var s1 := if Fires(l.clock, setup.intervals, MeterTimer, input.now) then MeterPhase(l.sys, setup.kind, setup.maxFailures, input) else l.sys;
      Tick(l, setup, input).sys.control ==
        ZeroFeed.Cycle(s1.control, setup.tuning, s1.fleet,
                       Meter.PollResult(setup.kind, input.controlResponse), input.controlOutcomes).ctrl
  {
  }

  /** The meter polls of every iteration failed. */
  predicate Outage(setup: Setup, inputs: seq<TickInput>) {
    forall i :: 0 <= i < |inputs| ==> Meter.PollResult(setup.kind, inputs[i].meterResponse).None?
  }

  /**
   * Over an outage the streak grows by one per poll made, and the fleet is
   * stopped exactly once if the streak crosses the limit during the outage
   * (and never otherwise).
   */
  lemma {:induction false} OutageStopsOnce(l: LoopState, setup: Setup, inputs: seq<TickInput>)
    requires AllFit(inputs, |l.sys.fleet|) && Outage(setup, inputs)
    ensures Run(l, setup, inputs).sys.meterFailures == l.sys.meterFailures + MeterPolls(l, setup, inputs)
    ensures Stops(l, setup, inputs) ==
      if l.sys.meterFailures < setup.maxFailures <= l.sys.meterFailures + MeterPolls(l, setup, inputs) then 1 else 0
    decreases |inputs|
  {
    if inputs != [] {
      var init := inputs[..|inputs| - 1];
      assert forall i :: 0 <= i < |init| ==> init[i] == inputs[i];
      OutageStopsOnce(l, setup, init);
      TickStreak(Run(l, setup, init), setup, inputs[|inputs| - 1]);
    }
  }

  /** A good poll ends the outage: the streak is back to zero and the control step is allowed again (for a positive limit). */
  lemma GoodPollClearsStreak(l: LoopState, setup: Setup, input: TickInput)
    requires Fits(input, |l.sys.fleet|)
    requires Fires(l.clock, setup.intervals, MeterTimer, input.now)
    requires Meter.PollResult(setup.kind, input.meterResponse).Some?
    ensures Tick(l, setup, input).sys.meterFailures == 0
    ensures !StopFires(l, setup, input)
  {
    TickStreak(l, setup, input);
  }

  /** Each timer is reset to the time it fired at, and left alone otherwise. */
  lemma TickTimers(l: LoopState, setup: Setup, input: TickInput, timer: Timer)
    requires Fits(input, |l.sys.fleet|)
    ensures Last(Tick(l, setup, input).clock, timer) ==
      if Fires(l.clock, setup.intervals, timer, input.now) then input.now else Last(l.clock, timer)
    ensures Tick(l, setup, input).clock.iteration == l.clock.iteration + 1
  {
  }

  predicate NonDecreasing(inputs: seq<TickInput>) {
    forall i, j :: 0 <= i <= j < |inputs| ==> inputs[i].now <= inputs[j].now
  }

  /** Whether `timer` fires in iteration `k` of a run over `inputs`. */
  predicate FiresAt(l: LoopState, setup: Setup, inputs: seq<TickInput>, k: nat, timer: Timer)
    requires AllFit(inputs, |l.sys.fleet|) && k < |inputs|
  {
    assert AllFit(inputs[..k], |l.sys.fleet|);
    Fires(Run(l, setup, inputs[..k]).clock, setup.intervals, timer, inputs[k].now)
  }

  /** Once a timer has fired at iteration `i`, its timestamp never drops below that iteration's time. */
  lemma {:induction false} LastFiringStays(l: LoopState, setup: Setup, inputs: seq<TickInput>, i: nat, k: nat, timer: Timer)
    requires AllFit(inputs, |l.sys.fleet|) && NonDecreasing(inputs)
    requires i < k <= |inputs| && FiresAt(l, setup, inputs, i, timer)
    ensures AllFit(inputs[..k], |l.sys.fleet|)
    ensures Last(Run(l, setup, inputs[..k]).clock, timer) >= inputs[i].now
    decreases k
  {
    RunTimerStep(l, setup, inputs, k, timer);
    if k > i + 1 {
      LastFiringStays(l, setup, inputs, i, k - 1, timer);
    }
  }

  /** The timestamps after `k` iterations of a run: iteration `k - 1` resets the timer iff it fires. */
  lemma RunTimerStep(l: LoopState, setup: Setup, inputs: seq<TickInput>, k: nat, timer: Timer)
    requires AllFit(inputs, |l.sys.fleet|) && 0 < k <= |inputs|
    ensures AllFit(inputs[..k - 1], |l.sys.fleet|) && AllFit(inputs[..k], |l.sys.fleet|)
    ensures var before := Run(l, setup, inputs[..k - 1]).clock;
      Last(Run(l, setup, inputs[..k]).clock, timer) ==
        if Fires(before, setup.intervals, timer, inputs[k - 1].now) then inputs[k - 1].now else Last(before, timer)
  {
    var prefix := inputs[..k];
    assert prefix[..k - 1] == inputs[..k - 1];
    assert AllFit(inputs[..k - 1], |l.sys.fleet|);
    TickTimers(Run(l, setup, inputs[..k - 1]), setup, inputs[k - 1], timer);
  }

  /** Two firings of the same timer are at least its interval apart, given that time does not run backwards. */
  lemma FiringsSpaced(l: LoopState, setup: Setup, inputs: seq<TickInput>, i: nat, j: nat, timer: Timer)
    requires AllFit(inputs, |l.sys.fleet|) && NonDecreasing(inputs)
    requires i < j < |inputs|
    requires FiresAt(l, setup, inputs, i, timer) && FiresAt(l, setup, inputs, j, timer)
    ensures inputs[j].now - inputs[i].now >= Interval(setup.intervals, timer)
  {
    LastFiringStays(l, setup, inputs, i, j, timer);
  }

  /** The index of the first iteration during which a termination signal arrives (or the length). */
  function FirstSignal(inputs: seq<TickInput>): (k: nat)
    ensures k <= |inputs|
    ensures forall i :: 0 <= i < k ==> !inputs[i].signal
    ensures k < |inputs| ==> inputs[k].signal
  {
    if inputs == [] then 0
    else if inputs[0].signal then 0
    else 1 + FirstSignal(inputs[1..])
  }

  /** How many iterations run: up to and including the one the signal arrives in. */
  function Executed(inputs: seq<TickInput>): (k: nat)
    ensures k <= |inputs|
  {
    if FirstSignal(inputs) < |inputs| then FirstSignal(inputs) + 1 else |inputs|
  }

  // ---------------------------------------------------------------------
  // The system object
  // ---------------------------------------------------------------------

  class MartekSystem {
    const meter: Meter.MeterClient?
    const batteries: BatteryManager?
    const controller: ZeroFeed.ZeroFeedController?
    var running: bool
    var meterFailureCount: nat
    var maxMeterFailures: int

    /** The components are wired up and consistent. */
    predicate Ready()
      reads this, controller, meter
    {
      && meter != null && batteries != null && controller != null
      && controller.meter == meter && controller.batteries == batteries
      && controller.Valid()
    }

    function State(): SystemState
      requires Ready()
      reads this, meter, batteries, batteries.units, controller
    {
      SystemState(meter.Snapshot(), batteries.Fleet(), controller.Control(), meterFailureCount)
    }

    function SetupFor(intervals: Intervals): Setup
      requires Ready()
      reads this, controller, meter
    {
      Setup(meter.kind, controller.Settings(), maxMeterFailures, intervals)
    }

    /** `__init__`: nothing is wired yet; the failure limit starts at 2. */
    constructor ()
      ensures meter == null && batteries == null && controller == null
      ensures !running && meterFailureCount == 0 && maxMeterFailures == DefaultMaxMeterFailures
    {
      meter := null;
      batteries := null;
      controller := null;
      running := false;
      meterFailureCount := 0;
      maxMeterFailures := DefaultMaxMeterFailures;
    }

    /** The system as a successful `initialize` leaves it, with the meter section's failure limit. */
    constructor Initialized(meter: Meter.MeterClient, batteries: BatteryManager,
                            controller: ZeroFeed.ZeroFeedController, maxFailures: int)
      requires controller.meter == meter && controller.batteries == batteries && controller.Valid()
      ensures Ready() && this.meter == meter && this.batteries == batteries && this.controller == controller
      ensures !running && meterFailureCount == 0 && maxMeterFailures == maxFailures
    {
      this.meter := meter;
      this.batteries := batteries;
      this.controller := controller;
      running := false;
      meterFailureCount := 0;
      maxMeterFailures := maxFailures;
    }

    /** `_signal_handler`: only asks the loop to end. */
    method SignalHandler()
      modifies this
      ensures !running
      ensures meterFailureCount == old(meterFailureCount) && maxMeterFailures == old(maxMeterFailures)
    {
      running := false;
    }

    /** The meter step of the loop body. */
    method PollMeter(input: TickInput)
      requires Ready() && |input.stopOutcomes| == |batteries.units|
      modifies this, meter, batteries.units
      ensures Ready() && running == old(running) && maxMeterFailures == old(maxMeterFailures)
      ensures controller.Settings() == old(controller.Settings())
      ensures State() == MeterPhase(old(State()), meter.kind, maxMeterFailures, input)
    {
      var power := meter.PollCurrentPower(input.meterResponse, input.now);
      CountPoll(power.Some?, input.stopOutcomes);
    }

    /** The failure-streak half of the meter step, after the poll returned (`pollOk`) or failed. */
    method CountPoll(pollOk: bool, stopOutcomes: seq<WriteOutcome>)
      requires Ready() && |stopOutcomes| == |batteries.units|
      modifies this, batteries.units
      ensures Ready() && running == old(running) && maxMeterFailures == old(maxMeterFailures)
      ensures controller.Settings() == old(controller.Settings())
      ensures State() == StreakPhase(old(State()), pollOk, maxMeterFailures, stopOutcomes)
    {
      if pollOk {
        if meterFailureCount > 0 {
          meterFailureCount := 0;
        }
      } else {
        meterFailureCount := meterFailureCount + 1;
        if meterFailureCount == maxMeterFailures {
          var _ := batteries.StopAll(stopOutcomes);
        }
      }
    }

    /** The control step of the loop body. */
    method RunControl(input: TickInput)
      requires Ready() && |input.controlOutcomes| == |batteries.units|
      modifies meter, batteries.units, controller
      ensures Ready() && controller.Settings() == old(controller.Settings())
      ensures State() == ControlPhase(old(State()), meter.kind, old(controller.Settings()), maxMeterFailures, input)
    {
      if meterFailureCount < maxMeterFailures {
        var _ := controller.ExecuteControlCycle(input.controlResponse, input.now, input.controlOutcomes);
      }
    }

    /** `_update_battery_soc`. */
    method UpdateBatterySoc(readings: seq<ReadOutcome>)
      requires Ready() && |readings| == |batteries.units|
      modifies batteries.units
      ensures Ready()
      ensures State() == old(State()).(fleet := RefreshedFleet(old(batteries.Fleet()), readings))
    {
      ghost var before := batteries.Fleet();
      var _ := batteries.UpdateAllSoc(readings);
      assert batteries.Fleet() == RefreshedFleet(before, readings);
    }

    /** One pass through the body of the main loop. */
    method Iterate(clock: Clock, intervals: Intervals, input: TickInput) returns (next: Clock)
      requires Ready() && Fits(input, |batteries.units|)
      modifies this, meter, batteries.units, controller
      ensures Ready() && running == old(running) && SetupFor(intervals) == old(SetupFor(intervals))
      ensures LoopState(State(), next) == Tick(LoopState(old(State()), clock), old(SetupFor(intervals)), input)
    {
      next := clock.(iteration := clock.iteration + 1);
      next := MeterStep(next, intervals, input);
      next := ControlStep(next, intervals, input);
      next := SocStep(next, intervals, input);
    }

    /** The meter step of the loop body, when its timer fires. */
    method MeterStep(clock: Clock, intervals: Intervals, input: TickInput) returns (next: Clock)
      requires Ready() && Fits(input, |batteries.units|)
      modifies this, meter, batteries.units
      ensures Ready() && running == old(running) && SetupFor(intervals) == old(SetupFor(intervals))
      ensures LoopState(State(), next) == MeterStage(LoopState(old(State()), clock), old(SetupFor(intervals)), input)
    {
      next := clock;
      if input.now - clock.lastMeterPoll >= MeterPollInterval {
        PollMeter(input);
        next := clock.(lastMeterPoll := input.now);
      }
    }

    /** The control step of the loop body, when its timer fires. */
    method ControlStep(clock: Clock, intervals: Intervals, input: TickInput) returns (next: Clock)
      requires Ready() && Fits(input, |batteries.units|)
      modifies meter, batteries.units, controller
      ensures Ready() && SetupFor(intervals) == old(SetupFor(intervals))
      ensures LoopState(State(), next) == ControlStage(LoopState(old(State()), clock), old(SetupFor(intervals)), input)
    {
      next := clock;
      if input.now - clock.lastControl >= intervals.control {
        RunControl(input);
        next := clock.(lastControl := input.now);
      }
    }

    /** The SoC step of the loop body, when its timer fires. */
    method SocStep(clock: Clock, intervals: Intervals, input: TickInput) returns (next: Clock)
      requires Ready() && Fits(input, |batteries.units|)
      modifies batteries.units
      ensures Ready() && SetupFor(intervals) == old(SetupFor(intervals))
      ensures LoopState(State(), next) == SocStage(LoopState(old(State()), clock), old(SetupFor(intervals)), input)
    {
      next := clock;
      if input.now - clock.lastSocUpdate >= intervals.soc {
        UpdateBatterySoc(input.socReadings);
        next := clock.(lastSocUpdate := input.now);
      }
    }

    /**
     * `run_main_loop`: iterates over `inputs` until a termination signal has
     * arrived; `ticks` is the number of iterations made.
     */
    method RunMainLoop(intervals: Intervals, inputs: seq<TickInput>) returns (ticks: nat)
      requires Ready() && AllFit(inputs, |batteries.units|)
      modifies this, meter, batteries.units, controller
      ensures Ready() && ticks == Executed(inputs)
      ensures running <==> FirstSignal(inputs) == |inputs|
      ensures AllFit(inputs[..ticks], |old(batteries.Fleet())|)
      ensures LoopState(State(), Run(LoopState(old(State()), StartClock), old(SetupFor(intervals)), inputs[..ticks]).clock)
              == Run(LoopState(old(State()), StartClock), old(SetupFor(intervals)), inputs[..ticks])
    {
      ghost var start := LoopState(State(), StartClock);
      ghost var setup := SetupFor(intervals);
      running := true;
      var clock := StartClock;
      ticks := 0;
      while running && ticks < |inputs|
        invariant 0 <= ticks <= |inputs|
        invariant Ready() && SetupFor(intervals) == setup && |batteries.units| == |start.sys.fleet|
        invariant AllFit(inputs[..ticks], |start.sys.fleet|)
        invariant LoopState(State(), clock) == Run(start, setup, inputs[..ticks])
        invariant running <==> forall k :: 0 <= k < ticks ==> !inputs[k].signal
        invariant ticks <= Executed(inputs)
      {
        assert inputs[..ticks + 1][..ticks] == inputs[..ticks];
        clock := Iterate(clock, intervals, inputs[ticks]);
        if inputs[ticks].signal {
          SignalHandler();
        }
        ticks := ticks + 1;
      }
    }

    /** `shutdown`: stops the fleet whenever one exists. */
    method Shutdown(outcomes: seq<WriteOutcome>)
      requires batteries != null ==> batteries.Valid() && |outcomes| == |batteries.units|
      modifies if batteries == null then [] else batteries.units
      ensures batteries != null ==> batteries.Fleet() == StopAllResult(old(batteries.Fleet()), outcomes).fleet
    {
      if batteries != null {
        var _ := batteries.StopAll(outcomes);
      }
    }
  }
}
