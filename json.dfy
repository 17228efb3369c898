/** The JSON-like values a parsed configuration file is made of, with the few
    pieces of Python semantics the metrics configuration relies on. */
module Json {

  /** A value of a parsed configuration: `None`, a bool, an int, a float, a
      string, a list or a dict with string keys. */
  datatype Json =
    | JNull
    | JBool(b: bool)
    | JInt(i: int)
    | JFloat(r: real)
    | JString(s: string)
    | JArray(items: seq<Json>)
    | JObject(fields: map<string, Json>)

  /** A configuration dictionary (Python's `JsonDict`). */
  type JsonDict = map<string, Json>

  /** Python's truth value of `v` (`bool(v)`): `None`, `False`, zero, and the
      empty string, list and dict are false; everything else is true. */
  predicate Truthy(v: Json)
    ensures !Truthy(v) <==>
              v == JNull || v == JBool(false) || v == JInt(0) || v == JFloat(0.0) ||
              v == JString("") || v == JArray([]) || v == JObject(map[])
  {
    match v
    case JNull => false
    case JBool(b) => b
    case JInt(i) => i != 0
    case JFloat(r) => r != 0.0
    case JString(s) => |s| != 0
    case JArray(items) => |items| != 0
    case JObject(fields) => |fields| != 0
  }

  /** Python's `d.get(key, default)`: the value stored under `key`, or
      `default` when `d` has no such key. */
  function Get(d: JsonDict, key: string, default: Json): (r: Json)
    ensures key in d ==> r == d[key]
    ensures key !in d ==> r == default
    ensures r in d.Values || r == default
  {
    if key in d then d[key] else default
  }

  /** Python's `a or b`: `a` when it is true, otherwise `b`. */
  function Or(a: Json, b: Json): (r: Json)
    ensures r == a || r == b
    ensures Truthy(r) <==> Truthy(a) || Truthy(b)
    ensures Truthy(a) ==> r == a
    ensures !Truthy(a) ==> r == b
  {
    if Truthy(a) then a else b
  }
}
