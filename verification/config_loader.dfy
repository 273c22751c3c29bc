/**
 * The configuration checks and lookups of `ConfigLoader`. A configuration is
 * the top-level JSON object that config.json decodes to; reading and decoding
 * the file are not part of this model. Every raised exception becomes an `Err`.
 */
module ConfigLoader {
  import opened Wrappers
  import opened JsonData

  /** The decoded top-level object. */
  type Config = map<string, Json>

  datatype ConfigError =
    | MissingSection(name: string)
    | MissingEnergyMeter
    | NotADict
    | UnknownMeterType
    | MissingMeterSection
    | MissingMeterIp
    | MissingBatteryIp
    | InvalidAkkuIds
    | AkkuIdOutOfRange
    | NotComparable
    | InvalidPort
    | KeyNotFound(path: string)

  // ---------------------------------------------------------------------
  // Validation
  // ---------------------------------------------------------------------

  const RequiredSections: seq<string> := ["battery", "control", "web"]

  /** The first of `names` that the configuration lacks, checked in order. */
  function FirstMissing(names: seq<string>, cfg: Config): (r: Option<string>)
    ensures r.None? <==> forall k :: 0 <= k < |names| ==> names[k] in cfg
    ensures r.Some? ==> r.value in names && r.value !in cfg
  {
    if names == [] then None
    else if names[0] !in cfg then Some(names[0])
    else FirstMissing(names[1..], cfg)
  }

  /** `isinstance(id, int) and 1 <= id <= 20` (a bool is an int in Python). */
  predicate AkkuIdOk(v: Json) {
    match v
    case JBool(b) => b
    case JInt(i) => 1 <= i <= 20
    case _ => false
  }

  /** The `all(...)` over the configured unit ids. */
  function AllAkkuIdsOk(ids: seq<Json>): bool {
    if ids == [] then true else AkkuIdOk(ids[0]) && AllAkkuIdsOk(ids[1..])
  }

  lemma {:induction false} AllAkkuIdsOkMeansEach(ids: seq<Json>)
    ensures AllAkkuIdsOk(ids) <==> forall k :: 0 <= k < |ids| ==> AkkuIdOk(ids[k])
  {
    if ids != [] {
      AllAkkuIdsOkMeansEach(ids[1..]);
      assert forall k :: 1 <= k < |ids| ==> ids[k] == ids[1..][k - 1];
    }
  }

  /** The rules `_validate_config` applies to the battery section, in its order. */
  function ValidateBattery(battery: Json): Result<(), ConfigError> {
    match battery
    case JObject(b) =>
      if !Truthy(FieldOr(b, "ip", JNull)) then Err(MissingBatteryIp)
      else
        var ids := FieldOr(b, "akku_ids", JNull);
        if !Truthy(ids) || !ids.JArray? then Err(InvalidAkkuIds)
        else if !AllAkkuIdsOk(ids.items) then Err(AkkuIdOutOfRange)
        else
          (match Numeric(FieldOr(b, "port", JInt(0)))
           case None => Err(NotComparable)
           case Some(port) => if 1.0 <= port <= 65535.0 then Ok(()) else Err(InvalidPort))
    case _ => Err(NotADict)
  }

  /** `_validate_config`: the first rule the configuration breaks, or success. */
  function Validate(cfg: Config): (r: Result<(), ConfigError>)
    ensures r.Ok? <==> Accepted(cfg)
  {
    match FirstMissing(RequiredSections, cfg)
    case Some(name) => Err(MissingSection(name))
    case None =>
      assert RequiredSections[0] in cfg && RequiredSections[1] in cfg && RequiredSections[2] in cfg;
      if "energy_meter" !in cfg then Err(MissingEnergyMeter)
      else
        match GetField(cfg["energy_meter"], "type", JString("shelly"))
        case None => Err(NotADict)
        case Some(meterType) =>
          if meterType != JString("shelly") && meterType != JString("ecotracker") then Err(UnknownMeterType)
          else if meterType.s !in cfg then Err(MissingMeterSection)
          else
            match GetField(cfg[meterType.s], "ip", JNull)
            case None => Err(NotADict)
            case Some(ip) =>
              if !Truthy(ip) then Err(MissingMeterIp)
              else
                var battery := cfg["battery"];
                var ids := if battery.JObject? then FieldOr(battery.fields, "akku_ids", JNull) else JNull;
                AllAkkuIdsOkMeansEach(if ids.JArray? then ids.items else []);
                ValidateBattery(battery)
  }

  /**
   * What an accepted configuration looks like, stated rule by rule: the
   * battery, control, web and energy_meter sections exist; the meter type
   * (default "shelly") is "shelly" or "ecotracker" and names a section with a
   * non-empty ip; the battery section has a non-empty ip, a non-empty list of
   * unit ids each an integer in 1..20, and a port (default 0) in 1..65535.
   */
  predicate Accepted(cfg: Config) {
    && "battery" in cfg && "control" in cfg && "web" in cfg
    && "energy_meter" in cfg
    && cfg["energy_meter"].JObject?
    && var meterType := FieldOr(cfg["energy_meter"].fields, "type", JString("shelly"));
    && (meterType == JString("shelly") || meterType == JString("ecotracker"))
    && meterType.s in cfg
    && cfg[meterType.s].JObject?
    && Truthy(FieldOr(cfg[meterType.s].fields, "ip", JNull))
    && cfg["battery"].JObject?
    && var b := cfg["battery"].fields;
    && Truthy(FieldOr(b, "ip", JNull))
    && FieldOr(b, "akku_ids", JNull).JArray?
    && |FieldOr(b, "akku_ids", JNull).items| > 0
    && (forall k :: 0 <= k < |FieldOr(b, "akku_ids", JNull).items| ==> AkkuIdOk(FieldOr(b, "akku_ids", JNull).items[k]))
    && Numeric(FieldOr(b, "port", JInt(0))).Some?
    && 1.0 <= Numeric(FieldOr(b, "port", JInt(0))).value <= 65535.0
  }

  // ---------------------------------------------------------------------
  // Getters
  // ---------------------------------------------------------------------

  /** `get_energy_meter_type`: the meter section's type, "shelly" when absent. */
  function EnergyMeterType(cfg: Config): Result<Json, ConfigError> {
    var section := if "energy_meter" in cfg then cfg["energy_meter"] else JObject(map[]);
    match GetField(section, "type", JString("shelly"))
    case None => Err(NotADict)
    case Some(t) => Ok(t)
  }

  /** `get_energy_meter_config`: the section named by the meter type. */
  function EnergyMeterConfig(cfg: Config): Result<Json, ConfigError> {
    match EnergyMeterType(cfg)
    case Err(e) => Err(e)
    case Ok(t) => if t.JString? && t.s in cfg then Ok(cfg[t.s]) else Err(KeyNotFound("energy meter section"))
  }

  /** `get_logging_config`: the logging section, or an empty dict. */
  function LoggingConfig(cfg: Config): Json {
    if "logging" in cfg then cfg["logging"] else JObject(map[])
  }

  /**
   * An accepted configuration names a known meter type, and the meter
   * section the getters hand to the meter client is a dict with an ip.
   */
  lemma AcceptedMeterConfig(cfg: Config)
    requires Validate(cfg).Ok?
    ensures EnergyMeterType(cfg).Ok?
    ensures EnergyMeterType(cfg).value == JString("shelly") || EnergyMeterType(cfg).value == JString("ecotracker")
    ensures EnergyMeterConfig(cfg).Ok? && EnergyMeterConfig(cfg).value.JObject?
    ensures Truthy(FieldOr(EnergyMeterConfig(cfg).value.fields, "ip", JNull))
  {
  }

  /** The logging section is optional: without it the getter yields an empty dict. */
  lemma LoggingConfigDefault(cfg: Config)
    ensures "logging" !in cfg ==> LoggingConfig(cfg) == JObject(map[])
    ensures "logging" in cfg ==> LoggingConfig(cfg) == cfg["logging"]
  {
  }

  // ---------------------------------------------------------------------
  // Dotted-path lookup
  // ---------------------------------------------------------------------

  /** `path.split('.')`: the dot-separated segments, empty ones included. */
  function Split(path: string): (parts: seq<string>)
    ensures |parts| >= 1
    ensures forall k :: 0 <= k < |parts| ==> '.' !in parts[k]
  {
    if path == [] then [""]
    else
      var rest := Split(path[1..]);
      if path[0] == '.' then [""] + rest
      else [[path[0]] + rest[0]] + rest[1..]
  }

  /** `'.'.join(parts)`. */
  function Join(parts: seq<string>): string
    requires |parts| >= 1
  {
    if |parts| == 1 then parts[0] else parts[0] + "." + Join(parts[1..])
  }

  lemma {:induction false} JoinConsHead(c: char, parts: seq<string>)
    requires |parts| >= 1
    ensures Join([[c] + parts[0]] + parts[1..]) == [c] + Join(parts)
  {
    var moved := [[c] + parts[0]] + parts[1..];
    if |parts| > 1 {
      assert moved[1..] == parts[1..];
    }
  }

  /** Splitting at the dots and joining again gives back the path. */
  lemma {:induction false} JoinSplit(path: string)
    ensures Join(Split(path)) == path
  {
    if path != [] {
      var rest := Split(path[1..]);
      JoinSplit(path[1..]);
      if path[0] == '.' {
        assert ([""] + rest)[1..] == rest;
      } else {
        JoinConsHead(path[0], rest);
      }
      assert path == [path[0]] + path[1..];
    }
  }

  /** Joining dot-free segments and splitting again gives back the segments. */
  lemma {:induction false} SplitJoin(parts: seq<string>)
    requires |parts| >= 1
    requires forall k :: 0 <= k < |parts| ==> '.' !in parts[k]
    ensures Split(Join(parts)) == parts
    decreases |parts|, |parts[0]|
  {
    if |parts[0]| == 0 {
      if |parts| > 1 {
        SplitJoin(parts[1..]);
        assert Join(parts) == "." + Join(parts[1..]);
        assert Join(parts)[1..] == Join(parts[1..]);
        assert parts == [""] + parts[1..];
      }
    } else {
      var tail := [parts[0][1..]] + parts[1..];
      assert forall k :: 0 <= k < |tail| ==> '.' !in tail[k] by {
        forall k | 0 <= k < |tail| ensures '.' !in tail[k] {
          if k == 0 {
            assert forall c :: c in parts[0][1..] ==> c in parts[0];
          } else {
            assert tail[k] == parts[k];
          }
        }
      }
      SplitJoin(tail);
      JoinConsHead(parts[0][0], tail);
      assert [parts[0][0]] + tail[0] == parts[0];
      assert [[parts[0][0]] + tail[0]] + tail[1..] == parts;
      assert Join(parts) == [parts[0][0]] + Join(tail);
      assert parts[0][0] in parts[0];
      assert Join(parts)[1..] == Join(tail);
    }
  }

  /** Walking `parts` from `v`, descending one dict level per segment. */
  function Lookup(v: Json, parts: seq<string>): Option<Json>
    decreases |parts|
  {
    if parts == [] then Some(v)
    else
      match v
      case JObject(fields) => if parts[0] in fields then Lookup(fields[parts[0]], parts[1..]) else None
      case _ => None
  }

  /** A walk along `p + q` is the walk along `p` followed by the walk along `q`. */
  lemma {:induction false} LookupAppend(v: Json, p: seq<string>, q: seq<string>)
    ensures Lookup(v, p + q) == if Lookup(v, p).Some? then Lookup(Lookup(v, p).value, q) else None
    decreases |p|
  {
    if p != [] {
      assert (p + q)[0] == p[0];
      assert (p + q)[1..] == p[1..] + q;
      if v.JObject? && p[0] in v.fields {
        LookupAppend(v.fields[p[0]], p[1..], q);
      }
    } else {
      assert p + q == q;
    }
  }

  /**
   * `get(path, default)`: walks the segments of `path` from the top-level
   * object and returns the value found; when a segment is missing (or the
   * walk reaches something that is not a dict) it returns `default`, or fails
   * when the default is Python's None.
   */
  method Get(cfg: Config, path: string, default: Json) returns (r: Result<Json, ConfigError>)
    ensures Lookup(JObject(cfg), Split(path)).Some? ==> r == Ok(Lookup(JObject(cfg), Split(path)).value)
    ensures Lookup(JObject(cfg), Split(path)).None? && default != JNull ==> r == Ok(default)
    ensures Lookup(JObject(cfg), Split(path)).None? && default == JNull ==> r == Err(KeyNotFound(path))
  {
    var parts := Split(path);
    var value := JObject(cfg);
    var i := 0;
    var found := true;
    while found && i < |parts|
      invariant 0 <= i <= |parts|
      invariant found ==> Lookup(JObject(cfg), parts) == Lookup(value, parts[i..])
      invariant !found ==> Lookup(JObject(cfg), parts) == None
      decreases |parts| - i, found
    {
      if value.JObject? && parts[i] in value.fields {
        assert parts[i..][1..] == parts[i + 1..];
        value := value.fields[parts[i]];
        i := i + 1;
      } else {
        found := false;
      }
    }
    if found {
      r := Ok(value);
    } else if default == JNull {
      r := Err(KeyNotFound(path));
    } else {
      r := Ok(default);
    }
  }
}
