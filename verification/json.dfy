/** Decoded JSON values and the Python operations the system applies to them. */
module JsonData {
  import opened Wrappers

  /** A decoded JSON value; integers and floats stay apart, as Python keeps them. */
  datatype Json =
    | JNull
    | JBool(b: bool)
    | JInt(i: int)
    | JFloat(f: real)
    | JString(s: string)
    | JArray(items: seq<Json>)
    | JObject(fields: map<string, Json>)

  /** Python truthiness of a decoded value. */
  predicate Truthy(v: Json) {
    match v
    case JNull => false
    case JBool(b) => b
    case JInt(i) => i != 0
    case JFloat(f) => f != 0.0
    case JString(s) => |s| > 0
    case JArray(items) => |items| > 0
    case JObject(fields) => |fields| > 0
  }

  /** The number Python compares a value as; a bool compares as 0 or 1, other values cannot be compared. */
  function Numeric(v: Json): Option<real> {
    match v
    case JBool(b) => Some(if b then 1.0 else 0.0)
    case JInt(i) => Some(i as real)
    case JFloat(f) => Some(f)
    case _ => None
  }

  /** `dict.get(key, default)` on a dict. */
  function FieldOr(fields: map<string, Json>, key: string, default: Json): Json {
    if key in fields then fields[key] else default
  }

  /** `v.get(key, default)`, which raises unless `v` is a dict. */
  function GetField(v: Json, key: string, default: Json): (r: Option<Json>)
    ensures r.Some? <==> v.JObject?
  {
    match v
    case JObject(fields) => Some(FieldOr(fields, key, default))
    case _ => None
  }
}
