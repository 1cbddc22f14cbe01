/**
 * The decoded JSON values the server returns, and the two Python idioms the
 * client applies to them: `d.get(key, default)` and truthiness (`if v:`).
 */
module Json {

  /** A value as `json.loads` produces it: numbers are kept as reals. */
  datatype Json =
    | JNull
    | JBool(b: bool)
    | JNum(n: real)
    | JStr(s: string)
    | JArr(elems: seq<Json>)
    | JObj(fields: map<string, Json>)

  /** `fields.get(key, default)` on a decoded object. */
  function Get(fields: map<string, Json>, key: string, default: Json): Json
  {
    if key in fields then fields[key] else default
  }

  /** Python truthiness: `None`, `False`, zero, and empty strings, lists and dicts are false. */
  predicate Truthy(v: Json)
  {
    match v
    case JNull => false
    case JBool(b) => b
    case JNum(n) => n != 0.0
    case JStr(s) => s != ""
    case JArr(elems) => elems != []
    case JObj(fields) => |fields| > 0
  }

  /** `'key' in d and d['key']`: the key is present and its value is truthy. */
  predicate HasTruthy(fields: map<string, Json>, key: string)
  {
    key in fields && Truthy(fields[key])
  }

  /** Values that Python's `format(v, '.2f')` accepts: numbers, and booleans (an `int` subclass). */
  predicate FormatsAsFixed(v: Json)
  {
    v.JNum? || v.JBool?
  }
}
