# Marstek Venus zero-feed controller, modelled in Dafny

The system keeps a building's grid exchange near zero with a fleet of
Marstek/Duravolt battery units on Modbus TCP. Once a second it polls a grid
meter (a Shelly 3EM or an EcoTracker). Every few seconds it runs a control
cycle:

- it decides from the grid power, the fleet's average state of charge (SoC)
  and the current operating point whether the fleet should stop, charge or
  discharge, and with what total power;
- it limits how far that total may move in one cycle (750 W);
- it spreads the total evenly over the units whose SoC allows it.

A streak of failed meter polls stops the fleet once and holds the controller
back until the meter answers again. A small web server shows a bounded log
and an overall status. It can retune four controller settings from a
reloaded configuration. Every configuration is validated before use.

The model is split by source file:

| file | module | models |
|---|---|---|
| `wrappers.dfy` | `Wrappers` | `Option` and `Result` |
| `window.dfy` | `Window` | the bounded FIFO behind the meter history (a deque of length 3) and the web log (50 entries) |
| `json.dfy` | `JsonData` | decoded JSON values, Python truthiness, `dict.get` |
| `stats.dfy` | `Stats` | sums, means, minimum and maximum of real sequences |
| `config_loader.dfy` | `ConfigLoader` | `_validate_config`, the dotted-path `get` and the section getters |
| `battery_client.dfy` | `Battery` | `BatteryClient` and `BatteryManager`, as classes over the units' state |
| `meter.dfy` | `Meter` | the Shelly and EcoTracker clients' history and failure bookkeeping and the weighted mean |
| `zero_feed_control.dfy` | `ZeroFeed` | the decision rules, the rate limiter, the control cycle and the `ZeroFeedController` class |
| `main_loop.dfy` | `MainLoop` | the main loop's timers, the meter fail-safe, shutdown and the signal handler |
| `web_server.dfy` | `WebServer` | the web log, the status classifier, the Modbus-ID check and the partial reload |

Each class method is proved against a pure function of the old state, for
example `Fleet() == Distribution(old(Fleet()), …).fleet`. The properties are
proved as lemmas about those functions.

Every device or network exchange is an input to the model:

- a Modbus write is a `WriteOutcome`: no connection, RS485 control rejected,
  raised, or written;
- a Modbus read is a `ReadOutcome`: no connection, rejected, raised, or a raw
  register value;
- a meter request is an `Option<Json>`, where `None` stands for any request
  failure;
- the wall clock is a `now: real` parameter.

Grid power is positive on import. Battery power is a magnitude, and the mode
gives its direction.

Behaviour of the code worth knowing, which the model reproduces:

- **The controller's grid input is a fresh poll.** The control cycle acts on a
  direct meter poll (`get_current_power_direct`, zero_feed_control.py:71), not
  on the smoothed three-sample average.
- **With no known SoC, the average SoC falls back to 50 %.** The fallback is
  at battery_client.py:348-350, so the cycle does not fail, and the "no SoC"
  branch of `_calculate_optimal_control` is unreachable from
  `execute_control_cycle`.
- **No eligible unit but some SoC known.** `distribute_power` returns false
  before its stop-the-others loop and deliberately leaves the running units
  running (battery_client.py:278-280, `return False  # NICHT stoppen!`)
  (`Battery.NoEligibleUnitLeavesFleet`).
- **No SoC known at all.** `distribute_power` returns the result of
  `stop_all` (battery_client.py:274-276), which may be true.
- **The power is only capped, not floored.** A target power is capped at the
  largest total the eligible units can carry, and has no lower bound at the
  per-unit minimum. A fleet whose SoCs are all unknown can therefore commit a
  0 W discharge while every unit is stopped
  (`ZeroFeed.UnknownSocFleetCommitsZeroDischarge`).
- **A signal does not stop the fleet at once.** The signal handler only
  clears `running` (main.py:93-96). The fleet is stopped later, by `shutdown`.

## Model

| member | source | states |
|---|---|---|
| `Window.Push` | web_server.py:328-332 | The new entry becomes the last one. The survivors are the newest entries in their original order. Exactly the single oldest entry is dropped when the buffer would exceed its capacity, and nothing is dropped otherwise. |
| `Window.PushAllKeepsNewest` | shelly_client.py:26 | Starting within capacity, any series of appends leaves exactly the newest `cap` values ever appended, in order. This is the meaning of the meter's `deque(maxlen=3)`. |
| `ConfigLoader.FirstMissing` | config_loader.py:42-46 | It reports nothing iff every required section is present. Otherwise it names a required section that is absent. |
| `ConfigLoader.AllAkkuIdsOkMeansEach` | config_loader.py:72-74 | The `all(...)` over the unit ids holds iff each id is an integer in 1..20. A `True` counts as the integer 1. |
| `ConfigLoader.Validate` | config_loader.py:40-80 | Validation succeeds iff the declarative rules hold. The rules: battery, control and web are present; energy_meter is present and a dict; its type (default "shelly") is shelly or ecotracker; that section exists with a truthy ip; the battery ip is truthy; akku_ids is a non-empty list of valid ids; the port (missing counts as 0) is in 1..65535. |
| `ConfigLoader.AcceptedMeterConfig` | config_loader.py:94-101 | For an accepted configuration, the meter type is "shelly" or "ecotracker". The meter section handed to the meter client is a dict with a truthy ip. |
| `ConfigLoader.LoggingConfigDefault` | config_loader.py:127-129 | The logging section is returned when present, and `{}` otherwise. |
| `ConfigLoader.Split` | config_loader.py:86 | Splitting on '.' yields at least one segment, and no segment contains a dot. |
| `ConfigLoader.JoinSplit` | config_loader.py:86 | Joining the segments of a path with dots gives back the path. |
| `ConfigLoader.SplitJoin` | config_loader.py:86 | Splitting the dot-join of dot-free segments gives back those segments. |
| `ConfigLoader.LookupAppend` | config_loader.py:85-88 | Walking a path `p + q` is walking `p`, then walking `q` from where `p` ended. |
| `ConfigLoader.Get` | config_loader.py:82-92 | The loop returns the value when every segment exists. Otherwise it returns the default, or a KeyNotFound error naming the path when the default is None. |
| `Battery.RoundHalfEven` | battery_client.py:132 | The result is an integer within 0.5 of the input, and ties go to the even integer (Python's `round`). |
| `Battery.DevicePower` | battery_client.py:131-134 | Non-positive power becomes 0. Positive power becomes an integer in [50, 2500]: exactly 50 for powers at or below 50, exactly 2500 for powers at or above 2500, and within 0.5 of the request in between. A request exactly halfway between two watts goes to the even one, as Python's `round` does. |
| `Battery.SocReading` | battery_client.py:88-100 | A reading is reported iff the exchange returned a register value in 0..100, and it is that value. |
| `Battery.SetPowerRecordsCommand` | battery_client.py:110-186 | After a completed write the unit is in the requested mode and one error is forgiven (never below 0). The power is the clamped request when running, 0 when stopped, and `last_active_mode` is updated only for a running mode. A connection failure or exception adds one error and changes nothing else. A rejected RS485 control write changes nothing at all. |
| `Battery.UnitOperationsKeepUnitOk` | battery_client.py:65-186 | `set_power` and `read_soc` preserve the unit invariant. The invariant: power is 0 or in [50, 2500]; a stopped unit has power 0; a known SoC is in 0..100; a running unit's last active mode is its mode. |
| `Battery.ReadSocRecordsReading` | battery_client.py:65-108 | A plausible reading becomes `last_soc` and forgives one error (never below 0). An implausible register value changes nothing at all. A failed exchange adds one error and keeps `last_soc`. |
| `Battery.BatteryClient.constructor` | battery_client.py:29-44 | A new unit is stopped at 0 W with no SoC and no errors. |
| `Battery.BatteryClient.ReadSoc` | battery_client.py:65-108 | It returns the plausible reading, and the unit's new state is the `read_soc` bookkeeping of its old state. |
| `Battery.BatteryClient.SetPower` | battery_client.py:110-186 | It returns true iff the exchange completed, and the new state is the `set_power` bookkeeping of the old state. |
| `Battery.BatteryClient.Stop` | battery_client.py:204-206 | It is `set_power(0, Stop)`. |
| `Battery.BatteryClient.ResetErrorCount` | battery_client.py:208-211 | The error count becomes 0, and nothing else changes. |
| `Battery.EligibleMask` | battery_client.py:245-265 | Unit j is eligible iff its SoC is known and below max_soc (charging) or above min_soc (discharging). |
| `Battery.KnownSocs` | battery_client.py:343-346 | It is empty iff no unit's SoC is known. |
| `Battery.KnownSocsAreReported` | battery_client.py:343-346 | A value is among the collected SoCs iff some unit reports it. |
| `Battery.Dedup` | battery_client.py:222-224 | The dict keyed by unit id holds each configured id exactly once, and no others. |
| `Battery.StopAllStopsEverything` | battery_client.py:317-329 | The result is true iff every unit's stop completed. Every unit that acknowledged is stopped at 0 W. After a full success the total power is 0. |
| `Battery.AllStoppedTotalZero` | battery_client.py:331-339 | A fleet of stopped units reports a total power of 0. |
| `Battery.TotalPowerBounded` | battery_client.py:331-339 | For units satisfying the unit invariant, the signed total lies within ±(number of units × 2500). |
| `Battery.IneligibleUnitsNeverDispatched` | battery_client.py:245-290 | An ineligible unit is either stopped at 0 W or left exactly as it was, so it is never newly put into the requested mode. It is sent `stop()` when the request is a stop, when some unit is eligible, or when no SoC is known. It is left exactly as it was when no unit is eligible but some SoC is known. |
| `Battery.UnknownSocNeverDispatched` | battery_client.py:250-252 | A unit with unknown SoC is never put into the requested mode. |
| `Battery.DistributionSplitsEvenly` | battery_client.py:283-315 | With n > 0 eligible units, every acknowledged eligible unit runs in the mode at the clamped `total / n`. The result is true iff some eligible unit acknowledged, and then some unit runs in the mode. |
| `Battery.NoEligibleUnitLeavesFleet` | battery_client.py:267-281 | With no eligible unit but some SoC known, the result is false and the fleet is left exactly as it was. |
| `Battery.DistributionKeepsUnitOk` | battery_client.py:236-315 | Distribution preserves the unit invariant for every unit. |
| `Battery.AverageSocBetweenMinMax` | battery_client.py:341-373 | When some SoC is known, the average lies between the minimum and the maximum that `get_min_max_soc` reports. |
| `Battery.AverageSocIsPercentage` | battery_client.py:341-354 | The average is a percentage in 0..100. It is exactly 50 when no SoC is known. |
| `Battery.MinMaxSocBoundsKnown` | battery_client.py:363-373 | The result is (None, None) iff no SoC is known. Otherwise both values are SoCs of actual units, and they bound every known SoC. |
| `Battery.BatteryManager.constructor` | battery_client.py:216-226 | The manager holds one fresh, initial unit per distinct configured id. |
| `Battery.BatteryManager.UpdateAllSoc` | battery_client.py:228-234 | Every unit gets the `read_soc` bookkeeping, and the returned list holds each unit's reading in order. |
| `Battery.BatteryManager.StopAll` | battery_client.py:317-329 | The loop leaves the fleet and the result that the `stop_all` specification gives. |
| `Battery.BatteryManager.SelectEligible` | battery_client.py:245-265 | The loop builds exactly the eligibility mask and its count. |
| `Battery.BatteryManager.StopUnselected` | battery_client.py:288-290 | Exactly the units outside the selection receive `stop()`. |
| `Battery.BatteryManager.CommandSelected` | battery_client.py:293-299 | Exactly the selected units receive `set_power(share, mode)`. The success count is the number of them that acknowledged. |
| `Battery.BatteryManager.DistributePower` | battery_client.py:236-315 | The method's new fleet and result are those of the `distribute_power` specification function, whose properties are the lemmas above. |
| `Battery.BatteryManager.GetTotalPower` | battery_client.py:331-339 | The loop returns the signed total: discharging positive, charging negative, stopped 0. |
| `Battery.BatteryManager.CollectKnownSocs` | battery_client.py:343-346 | The loop collects exactly the known SoCs, in unit order. |
| `Battery.BatteryManager.GetAverageSoc` | battery_client.py:341-354 | It returns the mean of the known SoCs, or 50. |
| `Battery.BatteryManager.GetMinMaxSoc` | battery_client.py:363-373 | It returns the specified (min, max) pair. |
| `Meter.DecodePower` | shelly_client.py:41-49 | A Shelly body decodes to a+b+c over the `em:0` phases, a missing `em:0` or phase counting 0 W, and fails when a phase is not a number or `em:0` is not a dict. An EcoTracker body decodes to its `power` value (ecotracker_client.py:45), or 0 W when absent. A body that is not a dict fails. |
| `Meter.ShellyBodyDecodes` | shelly_client.py:42-49 | A body reporting any subset of the three phase powers decodes to their sum, absent phases counting 0 W. |
| `Meter.EcoTrackerBodyDecodes` | ecotracker_client.py:45 | A body `{"power": p}` decodes to p. |
| `Meter.AfterPoll` | shelly_client.py:53-80 | A good poll appends (power, now) as the newest history entry, keeping at most 3, and clears the failure count. A failed poll adds exactly one failure and leaves the history and timestamps unchanged. ecotracker_client.py:49-76 does the same. |
| `Meter.HistoryIsNewestReadings` | shelly_client.py:53-56 | After any series of polls, the history is exactly the newest three readings, in order. |
| `Meter.FailuresCountTrailingFailures` | shelly_client.py:59-80 | A series with no good poll adds one failure per poll. A series ending in a good poll leaves the count at 0. |
| `Meter.WeightedAverageBetween` | shelly_client.py:96-105 | The recency-weighted mean lies between any lower and upper bound of the history values, so a constant history yields that constant. ecotracker_client.py:93-101 is the same. |
| `Meter.WeightedAverageOfOne` | shelly_client.py:93-94 | A single entry is returned verbatim. |
| `Meter.WeightedAverageWeights` | shelly_client.py:97-105 | With two entries the mean is (p0 + 2·p1)/3. With three it is (p0 + 2·p1 + 3·p2)/6, the oldest entry having weight 1. |
| `Meter.WeightedMean` | shelly_client.py:97-105 | The accumulation loop computes the weighted mean. |
| `Meter.MeterClient.constructor` | shelly_client.py:18-27 | The history starts empty and the failure count at 0. |
| `Meter.MeterClient.PollCurrentPower` | shelly_client.py:31-80 | It returns the decoded power, or None on failure, and updates the state as the poll bookkeeping says. ecotracker_client.py:31-76 does the same. |
| `Meter.MeterClient.GetCurrentPowerDirect` | shelly_client.py:110-115 | It is exactly one poll. |
| `Meter.MeterClient.GetPower` | shelly_client.py:82-108 | On an empty history it makes exactly one poll and returns that poll's result. Otherwise it changes nothing and returns the weighted mean of the history. ecotracker_client.py:78-104 does the same. |
| `Meter.MeterClient.ResetFailureCount` | shelly_client.py:186-188 | The failure count becomes 0, and nothing else changes. ecotracker_client.py:187-190 does the same. |
| `ZeroFeed.Decide` | zero_feed_control.py:189-327 | Stop means 0 W. Charging needs SoC below max_soc, discharging needs SoC above min_soc. The power never exceeds the eligible maximum, nor falls below the lesser of min_power and that maximum. No decision reverses Charge↔Discharge directly. From Stop, a start needs the grid outside the target band by 50 W and a deviation from the target of at least min_power. Below 13 % SoC, charging starts only at an export of at least 100 W. From Stop, a charge starts exactly when the export is beyond the band, SoC is below max_soc, the low-SoC guard passes and abs(grid) − abs(target_charge) reaches min_power. It then starts at min(abs(grid) − abs(target_charge), max_charge). A discharge starts exactly when no charge start applies, the import is beyond the band, SoC is above min_soc and grid − target_discharge reaches min_power. It then starts at min(grid − target_discharge, max_discharge). A running mode continues exactly when its SoC limit allows and its goal reaches min_power, and it then runs at min(goal, max). A charge also stops while importing with no PV (charge power − grid ≤ 0). The charge goal is PV − abs(target_charge) when that leaves min_power, PV otherwise, and power + abs(grid) − abs(target_charge) while exporting. The discharge goal is consumption − target_discharge when that leaves min_power, and consumption otherwise. |
| `ZeroFeed.DischargeAdjustmentHitsTarget` | zero_feed_control.py:209-232 | An adjusted discharge leaves the grid at target_discharge (hysteresis band) or at 0 (flexible goal), depending on the consumption. |
| `ZeroFeed.ChargeAdjustmentHitsTarget` | zero_feed_control.py:262-282 | While exporting, an adjusted charge leaves the export at abs(target_charge). |
| `ZeroFeed.DischargeContinuesIff` | zero_feed_control.py:205-232 | From Discharge, for any dischargeable maximum, the fleet keeps discharging iff SoC > min_soc and the (flexible) goal reaches min_power. |
| `ZeroFeed.RateLimit` | zero_feed_control.py:146-187 | The mode is never changed. A Stop becomes 0 W, unflagged. A start or a reversal runs at min(target, 750), flagged iff the target exceeds 750. Within a mode a step of more than 750 W is flagged and moves exactly 750 W toward the target, floored at 0; a smaller step reaches the target unflagged. |
| `ZeroFeed.NoReadingNoAction` | zero_feed_control.py:71-74 | Without a grid reading the cycle fails and nothing changes. |
| `ZeroFeed.CycleKeepsControlOk` | zero_feed_control.py:76-137 | Every cycle keeps the operating point valid: power ≥ 0, and Stop means 0 W. |
| `ZeroFeed.PlanKeepsControlOk` | zero_feed_control.py:78-89 | From a valid operating point, the decided and rate-limited target is itself valid: power ≥ 0, and 0 W for Stop. |
| `ZeroFeed.CycleSlewBounded` | zero_feed_control.py:88-124 | A committed power moves at most 750 W within a mode, and starts at most at 750 W after a mode change. |
| `ZeroFeed.CycleCountsModeChanges` | zero_feed_control.py:119-124 | The mode-change counter grows by one exactly when the committed mode differs. |
| `ZeroFeed.FailedCommandKeepsControl` | zero_feed_control.py:117-130 | A cycle that reports failure leaves the operating point (and the last grid power) unchanged. A cycle that does not act leaves the fleet unchanged. |
| `ZeroFeed.CycleActsOnSignificantChange` | zero_feed_control.py:91-95 | The fleet is commanded iff the limited mode differs or the power moves by more than min_power/2. |
| `ZeroFeed.CommittedStopStopsFleet` | zero_feed_control.py:354-382 | A committed Stop leaves every unit stopped and the fleet's total power at 0. |
| `ZeroFeed.UnknownSocFleetCommitsZeroDischarge` | zero_feed_control.py:311-321 | With no SoC known, an import above the start band commits Discharge at 0 W (a true result) while every unit is stopped. |
| `ZeroFeed.ZeroFeedController.constructor` | zero_feed_control.py:29-66 | The controller starts in Stop at 0 W with no mode changes, under the given settings. |
| `ZeroFeed.ZeroFeedController.CountAvailable` | zero_feed_control.py:340-352 | The counting loop returns the number of units `distribute_power` would find eligible. |
| `ZeroFeed.ZeroFeedController.MaxTotalChargePower` | zero_feed_control.py:329-331 | The result is the number of units eligible to charge times the per-unit maximum. |
| `ZeroFeed.ZeroFeedController.MaxTotalDischargePower` | zero_feed_control.py:333-335 | The result is the number of units eligible to discharge times the per-unit maximum. |
| `ZeroFeed.ZeroFeedController.ExecuteBatteryControl` | zero_feed_control.py:354-382 | A Stop is `stop_all`. Any other mode distributes abs(power). |
| `ZeroFeed.ZeroFeedController.ExecuteControlCycle` | zero_feed_control.py:68-144 | The meter gets one direct poll. The new operating point, fleet and result are those of the cycle specification, whose properties are the lemmas above. The settings are unchanged. |
| `ZeroFeed.ZeroFeedController.RegulateWith` | zero_feed_control.py:76-137 | After a good reading, the method does what the cycle specification says. |
| `ZeroFeed.ZeroFeedController.PlanCycle` | zero_feed_control.py:76-89 | The method reads the average SoC and the two maximum totals, decides, and rate-limits, producing the target that the cycle specification plans. |
| `ZeroFeed.ZeroFeedController.CommitPlan` | zero_feed_control.py:92-132 | The fleet is commanded only on a mode change or a significant power change. Only a completed command moves the operating point and counts a mode change. |
| `ZeroFeed.ZeroFeedController.ResetStatistics` | zero_feed_control.py:400-402 | Only the mode-change counter is reset. |
| `MainLoop.ConfiguredIntervals` | main.py:205-208 | A missing `poll_interval_seconds` gives 2 s and a missing `soc_update_interval_seconds` gives 30 s. A present key gives its numeric value. The result is None exactly when a value is not a number. |
| `MainLoop.TickStreak` | main.py:227-243 | The streak changes only in the meter step. A good poll clears it, and a failed one adds one. The fleet is stopped exactly when a failed poll brings the streak to the limit. |
| `MainLoop.OutageHoldsControl` | main.py:246-269 | While the streak is at or above the limit, the controller neither polls nor changes state. The fleet changes only through the fail-safe stop and the SoC refresh. |
| `MainLoop.ControlRunsBelowLimit` | main.py:246-248 | Below the limit, a due control step runs exactly one control cycle. |
| `MainLoop.OutageStopsOnce` | main.py:235-241 | During an outage the streak grows by one per poll made. The fleet is stopped exactly once if the streak crosses the limit, and never otherwise. |
| `MainLoop.GoodPollClearsStreak` | main.py:228-234 | A good poll resets the streak to 0 and never stops the fleet. |
| `MainLoop.TickTimers` | main.py:224-276 | Each timer is set to the current time when it fires, and is left alone otherwise. The iteration count grows by one. |
| `MainLoop.FiringsSpaced` | main.py:227-276 | If time never runs backwards, two firings of the same timer are at least its interval apart. |
| `MainLoop.MartekSystem.constructor` | main.py:74-91 | Nothing is wired yet, the loop is not running, the streak is 0 and the limit is 2. |
| `MainLoop.MartekSystem.Initialized` | main.py:132-163 | A successful `initialize` leaves the meter, manager and controller wired, with the meter section's failure limit. |
| `MainLoop.MartekSystem.SignalHandler` | main.py:93-96 | It only clears `running`. |
| `MainLoop.MartekSystem.PollMeter` | main.py:227-243 | The meter step matches its specification, including the single `stop_all` at the limit. |
| `MainLoop.MartekSystem.CountPoll` | main.py:228-241 | A good poll clears the streak. A failed poll adds one, and the fleet is stopped when the streak reaches the limit. |
| `MainLoop.MartekSystem.RunControl` | main.py:246-248 | The controller's cycle runs only while the streak is below the limit. |
| `MainLoop.MartekSystem.UpdateBatterySoc` | main.py:290-293 | Every unit's SoC is refreshed, and nothing else changes. |
| `MainLoop.MartekSystem.Iterate` | main.py:221-279 | One loop body is the specified iteration: meter, control and SoC steps, each on its own timer. |
| `MainLoop.MartekSystem.MeterStep` | main.py:227-243 | The meter step runs, and its timestamp is reset, exactly when its one-second timer is due. |
| `MainLoop.MartekSystem.ControlStep` | main.py:246-271 | The control step runs, and its timestamp is reset, exactly when the control interval has elapsed. |
| `MainLoop.MartekSystem.SocStep` | main.py:274-276 | The SoC refresh runs, and its timestamp is reset, exactly when the SoC interval has elapsed. |
| `MainLoop.MartekSystem.RunMainLoop` | main.py:201-288 | The loop makes the specified iterations up to and including the one in which the signal arrives. It leaves `running` false iff a signal arrived. |
| `MainLoop.MartekSystem.Shutdown` | main.py:314-329 | When a manager exists, the fleet is `stop_all`'d. |
| `WebServer.FaultyUnitsCounts` | web_server.py:310-311 | All units are faulty (error count above 5) iff the count equals the fleet size. None is faulty iff the count is 0. |
| `WebServer.ClassifyStatus` | web_server.py:298-318 | Offline meter ⇒ error. Otherwise meter failures ⇒ warning. Otherwise every battery faulty (an empty fleet included) ⇒ error. Some faulty ⇒ warning. None faulty ⇒ ok. Each verdict holds iff its condition does. |
| `WebServer.CheckModbusId` | web_server.py:163-164 | An integer ID is accepted iff it lies in 1..255, and None is rejected. `True` is accepted (as 1). A string, list or dict is never accepted. |
| `WebServer.Reloaded` | web_server.py:276-283 | Only the four reloadable settings can change. The targets default to -20/20 W. The result is ok iff both SoC limits are present. Assignments made before a missing key stay. |
| `WebServer.SimpleWebServer.constructor` | web_server.py:21-37 | The log starts empty. |
| `WebServer.SimpleWebServer.AddLogEntry` | web_server.py:320-332 | The entry is appended as the newest. On overflow exactly the oldest entry is dropped, so the log never exceeds 50 entries. |
| `WebServer.SimpleWebServer.ReloadConfig` | web_server.py:268-296 | The controller's settings become the reloaded ones, and its operating point is untouched. A completed reload is logged. |

## Left out

- HTTP and Modbus traffic, `time.sleep`, and the register write order inside
  `set_power`. They are replaced by the outcome inputs described above.
  `_create_connection` and `close` are not part of this model.
- Floating point. Watts and SoC are reals, and Python's `round` is modelled
  exactly on reals.
- Meter.DecodePower: `float()` of a numeric string is treated as a decode
  failure, because string-to-number parsing is not modelled.
- The meter clients' `is_online`, `get_status`, `get_detailed_power` and
  `get_device_info`.
- `BatteryClient.get_status`, `BatteryManager.get_all_status`,
  `ZeroFeedController.get_status`, and the `last_soc_update` timestamp (wall
  clock).
- `ZeroFeedController._get_min_total_power`, which no core path calls.
- The failed-decision branch of `execute_control_cycle`.
  `_calculate_optimal_control` fails only for an unknown average SoC, and
  `get_average_soc` always returns a number, so `ZeroFeed.Decide` takes a
  real SoC.
- Every log line and status string, including the controller's and the main
  loop's web-log entries and the German reason texts. Reasons are an enum,
  and the rate-limit flag is a bool.
- The main loop's periodic status output (main.py:252-261, 267-269). The
  model therefore does not capture three things:
  - the extra meter poll that output makes every `5 × control_interval`
    iterations;
  - the `ZeroDivisionError` for a control interval of 0;
  - the `ZeroDivisionError` for a control interval above 60 during an outage.
- The main loop's exception handler (the 5 s pause) and `KeyboardInterrupt`.
- `MartekSystem.initialize`, `start_web_server`, `run`, `main` and
  `setup_logging`. `MainLoop.MartekSystem.Initialized` stands for the state a
  successful `initialize` leaves.
- Concurrency: the termination signal is taken at iteration boundaries, which
  is where the loop tests `running`.
- The Flask routes other than the pure pieces above. Config file loading,
  saving and backup (`ConfigLoader.load`) are not part of this model.
- `scan_modbus_ids`, and the Modbus write in `set_modbus_id`.
- WebServer.Reloaded: the reloaded values are taken as numbers. A
  non-numeric value, which Python would store as-is, is not modelled.
- WebServer.ClassifyStatus: the meter's `online` flag is an input, because
  it comes from an HTTP probe.
