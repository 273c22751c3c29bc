/**
 * The pure pieces of the status web server (`SimpleWebServer`): the bounded
 * log shown on the dashboard, the overall system status, the range check on
 * a new Modbus ID, and the partial configuration reload that retunes the
 * running controller.
 */
module WebServer {
  import opened Wrappers
  import opened JsonData
  import opened Battery
  import Window
  import Meter
  import ZeroFeed

  /** The dashboard keeps this many log entries. */
  const MaxLogEntries: nat := 50
  /** A battery with more errors than this counts as faulty. */
  const FaultyErrorCount: nat := 5

  datatype LogEntry = LogEntry(timestamp: string, level: string, message: string)

  // ---------------------------------------------------------------------
  // Overall system status
  // ---------------------------------------------------------------------

  datatype Health = HealthOk | HealthWarning | HealthError

  /** The verdict of `_get_system_status`; the message text is not modelled. */
  datatype SystemStatus =
    | MeterOffline
    | MeterFailures(failures: nat)
    | AllBatteriesFaulty
    | SomeBatteriesFaulty(faulty: nat, total: nat)
    | Normal

  function HealthOf(s: SystemStatus): Health {
    match s
    case MeterOffline => HealthError
    case AllBatteriesFaulty => HealthError
    case MeterFailures(_) => HealthWarning
    case SomeBatteriesFaulty(_, _) => HealthWarning
    case Normal => HealthOk
  }

  predicate Faulty(u: UnitState) {
    u.errors > FaultyErrorCount
  }

  /** The number of faulty batteries in the fleet. */
  function FaultyUnits(fleet: seq<UnitState>): (n: nat)
    ensures n <= |fleet|
  {
    if fleet == [] then 0
    else FaultyUnits(fleet[..|fleet| - 1]) + (if Faulty(fleet[|fleet| - 1]) then 1 else 0)
  }

  /** The count is the whole fleet exactly when every unit is faulty, and zero exactly when none is. */
  lemma {:induction false} FaultyUnitsCounts(fleet: seq<UnitState>)
    ensures FaultyUnits(fleet) == |fleet| <==> forall i :: 0 <= i < |fleet| ==> Faulty(fleet[i])
    ensures FaultyUnits(fleet) == 0 <==> forall i :: 0 <= i < |fleet| ==> !Faulty(fleet[i])
  {
    if fleet != [] {
      var init := fleet[..|fleet| - 1];
      FaultyUnitsCounts(init);
      assert forall i :: 0 <= i < |init| ==> init[i] == fleet[i];
    }
  }

  /**
   * `_get_system_status`: the meter is checked before the batteries; an
   * offline meter is an error, a meter with failures a warning; then the
   * fleet is an error when every battery is faulty (an empty fleet
   * included), a warning when some are, and normal otherwise.
   */
  function ClassifyStatus(online: bool, meter: Meter.MeterState, fleet: seq<UnitState>): (r: SystemStatus)
    ensures r == MeterOffline <==> !online
    ensures r.MeterFailures? <==> online && meter.failures > 0
    ensures r == AllBatteriesFaulty <==>
      online && meter.failures == 0 && forall i :: 0 <= i < |fleet| ==> Faulty(fleet[i])
    ensures r.SomeBatteriesFaulty? <==>
      online && meter.failures == 0 &&
      (exists i :: 0 <= i < |fleet| && Faulty(fleet[i])) &&
      (exists i :: 0 <= i < |fleet| && !Faulty(fleet[i]))
    ensures r == Normal <==>
      online && meter.failures == 0 && |fleet| > 0 && forall i :: 0 <= i < |fleet| ==> !Faulty(fleet[i])
    ensures r.SomeBatteriesFaulty? ==> 0 < r.faulty < r.total == |fleet|
  {
    FaultyUnitsCounts(fleet);
    var faulty := FaultyUnits(fleet);
    if !online then MeterOffline
    else if meter.failures > 0 then MeterFailures(meter.failures)
    else if faulty == |fleet| then AllBatteriesFaulty
    else if faulty > 0 then SomeBatteriesFaulty(faulty, |fleet|)
    else Normal
  }

  // ---------------------------------------------------------------------
  // New Modbus ID
  // ---------------------------------------------------------------------

  datatype IdCheck = IdAccepted | IdRejected | IdNotComparable

  /**
   * The guard of `set_modbus_id` on the requested ID: a falsy value is
   * rejected, a number (a bool compares as 0 or 1) must lie in 1..255, and
   * any other value makes the comparison raise.
   */
  function CheckModbusId(newId: Json): (r: IdCheck)
    ensures newId.JInt? ==> (r == IdAccepted <==> 1 <= newId.i <= 255) && r != IdNotComparable
    ensures newId.JBool? ==> (r == IdAccepted <==> newId.b) && r != IdNotComparable
    ensures newId.JNull? ==> r == IdRejected
    ensures r == IdAccepted ==> Numeric(newId).Some? && 1.0 <= Numeric(newId).value <= 255.0
    ensures newId.JString? || newId.JArray? || newId.JObject? ==> r != IdAccepted
  {
    if !Truthy(newId) then IdRejected
    else match Numeric(newId)
      case None => IdNotComparable
      case Some(x) => if 1.0 <= x <= 255.0 then IdAccepted else IdRejected
  }

  // ---------------------------------------------------------------------
  // Partial configuration reload
  // ---------------------------------------------------------------------

  const TargetChargeKey: string := "target_grid_power_charge"
  const TargetDischargeKey: string := "target_grid_power_discharge"
  const MinSocKey: string := "min_soc_for_discharge"
  const MaxSocKey: string := "max_soc_for_charge"

  /** The control and battery sections of a freshly loaded configuration. */
  datatype Sections = Sections(control: map<string, real>, battery: map<string, real>)

  /** The entry `reload_config` adds to the log on success. */
  const ReloadMessage: string := "Konfiguration teilweise neu geladen"

  datatype Reload = Reload(settings: ZeroFeed.Tuning, ok: bool)

  function GetOr(m: map<string, real>, key: string, default: real): real {
    if key in m then m[key] else default
  }

  /**
   * The settings after `reload_config`: the two grid targets (defaulting to
   * -20 and 20 W) are assigned first, then the two SoC limits, each of which
   * raises when missing; the assignments made before a raise stay.
   */
  function Reloaded(t: ZeroFeed.Tuning, loaded: Option<Sections>): (r: Reload)
    ensures r.settings.maxPowerPerUnit == t.maxPowerPerUnit
    ensures r.settings.minPowerPerUnit == t.minPowerPerUnit
    ensures r.ok <==> loaded.Some? && MinSocKey in loaded.value.battery && MaxSocKey in loaded.value.battery
    ensures loaded.None? ==> r.settings == t
    ensures loaded.Some? ==>
      r.settings.targetCharge == GetOr(loaded.value.control, TargetChargeKey, -20.0) &&
      r.settings.targetDischarge == GetOr(loaded.value.control, TargetDischargeKey, 20.0)
    ensures r.ok ==>
      r.settings.minSocDischarge == loaded.value.battery[MinSocKey] &&
      r.settings.maxSocCharge == loaded.value.battery[MaxSocKey]
    ensures loaded.Some? && MinSocKey !in loaded.value.battery ==>
      r.settings.minSocDischarge == t.minSocDischarge && r.settings.maxSocCharge == t.maxSocCharge
  {
    match loaded
    case None => Reload(t, false)
    case Some(s) =>
      var targets := t.(targetCharge := GetOr(s.control, TargetChargeKey, -20.0),
                        targetDischarge := GetOr(s.control, TargetDischargeKey, 20.0));
      if MinSocKey !in s.battery then Reload(targets, false)
      else
        var withMin := targets.(minSocDischarge := s.battery[MinSocKey]);
        if MaxSocKey !in s.battery then Reload(withMin, false)
        else Reload(withMin.(maxSocCharge := s.battery[MaxSocKey]), true)
  }

  // ---------------------------------------------------------------------
  // The server object
  // ---------------------------------------------------------------------

  class SimpleWebServer {
    /** Set after construction, once the controller exists. */
    var controller: ZeroFeed.ZeroFeedController?
    var logBuffer: seq<LogEntry>

    predicate Valid()
      reads this
    {
      |logBuffer| <= MaxLogEntries
    }

    constructor (controller: ZeroFeed.ZeroFeedController?)
      ensures Valid() && this.controller == controller && logBuffer == []
    {
      this.controller := controller;
      logBuffer := [];
    }

    /** `add_log_entry`: append, then drop the oldest entry when over the limit. */
    method AddLogEntry(timestamp: string, level: string, message: string)
      requires Valid()
      modifies this
      ensures Valid() && controller == old(controller)
      ensures logBuffer == Window.Push(old(logBuffer), LogEntry(timestamp, level, message), MaxLogEntries)
    {
      logBuffer := logBuffer + [LogEntry(timestamp, level, message)];
      if |logBuffer| > MaxLogEntries {
        logBuffer := logBuffer[1..];
      }
    }

    /**
     * `reload_config`: retunes the controller from the reloaded sections and
     * logs the reload when it completes. `loaded` is `None` when loading the
     * file or finding the control or battery section failed.
     */
    method ReloadConfig(loaded: Option<Sections>, timestamp: string) returns (ok: bool)
      requires Valid()
      modifies this, controller
      ensures Valid() && controller == old(controller)
      ensures controller == null ==> !ok && logBuffer == old(logBuffer)
      ensures controller != null ==> controller.Settings() == Reloaded(old(controller.Settings()), loaded).settings
      ensures controller != null ==> ok == Reloaded(old(controller.Settings()), loaded).ok
      ensures controller != null ==> controller.Control() == old(controller.Control())
      ensures ok ==> logBuffer == Window.Push(old(logBuffer), LogEntry(timestamp, "INFO", ReloadMessage), MaxLogEntries)
      ensures !ok ==> logBuffer == old(logBuffer)
    {
      ok := false;
      if controller != null && loaded.Some? {
        var c := controller;
        var s := loaded.value;
        ghost var r := Reloaded(c.Settings(), loaded);
        c.targetGridPowerCharge := GetOr(s.control, TargetChargeKey, -20.0);
        c.targetGridPowerDischarge := GetOr(s.control, TargetDischargeKey, 20.0);
        if MinSocKey in s.battery {
          c.minSocDischarge := s.battery[MinSocKey];
          if MaxSocKey in s.battery {
            c.maxSocCharge := s.battery[MaxSocKey];
            ok := true;
          }
        }
        assert c.Settings() == r.settings && ok == r.ok;
        if ok {
          AddLogEntry(timestamp, "INFO", ReloadMessage);
        }
      }
    }
  }
}
