/** Decoded JSON values as `json.loads` returns them, and the few Python
    operations the bridges apply to them. */
module Json {
  import opened Wrappers

  /** A JSON value: objects become `dict`, arrays `list`, numbers `int` or
      `float`, `true`/`false` `bool`, and `null` `None`. */
  datatype Json =
    | JNull
    | JBool(b: bool)
    | JInt(i: int)
    | JFloat(f: real)
    | JString(s: string)
    | JArray(items: seq<Json>)
    | JObject(fields: map<string, Json>)

  /** The empty dictionary `{}`. */
  const EmptyObject: Json := JObject(map[])

  /** `value.get(key, default)`: `None` when `value` is not a dictionary,
      since only a `dict` has a `get` method (anything else raises
      AttributeError). */
  function Get(value: Json, key: string, default: Json): Option<Json> {
    match value
    case JObject(fields) => Some(if key in fields then fields[key] else default)
    case _ => None
  }

  /** Python's `value == 0` on a decoded value: `0`, `0.0` and `False` all
      compare equal to the integer zero; strings, `None` and containers never do. */
  predicate EqualsZero(value: Json) {
    value == JInt(0) || value == JFloat(0.0) || value == JBool(false)
  }

  /** Python truthiness of a decoded value, as used by `x if v else y`. */
  predicate Truthy(value: Json) {
    match value
    case JNull => false
    case JBool(b) => b
    case JInt(i) => i != 0
    case JFloat(f) => f != 0.0
    case JString(s) => s != ""
    case JArray(items) => items != []
    case JObject(fields) => fields != map[]
  }
}
