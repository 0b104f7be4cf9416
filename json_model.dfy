/** Decoded JSON values as the client sees them after `response.json()` or
    before `session.put(url, json=payload)`, with Python's truth test on them. */
module JsonModel {

  datatype Option<+T> = None | Some(value: T)

  /** A JSON value. An object is a Python (2) dict: unordered, one value per key. */
  datatype Json =
    | JNull
    | JBool(b: bool)
    | JInt(n: int)
    | JStr(s: string)
    | JArr(items: seq<Json>)
    | JObj(fields: map<string, Json>)

  /** Python's `not v`: None, False, 0, "", [] and {} are false, everything else true. */
  predicate Falsy(v: Json) {
    match v
    case JNull => true
    case JBool(b) => !b
    case JInt(n) => n == 0
    case JStr(s) => s == ""
    case JArr(items) => items == []
    case JObj(fields) => fields == map[]
  }

  /** The coercion `if not isinstance(x, list): x = [x]`. */
  function AsList(v: Json): seq<Json> {
    if v.JArr? then v.items else [v]
  }

  /** `v[key]` on a decoded value: None where Python raises KeyError or TypeError. */
  function Field(v: Json, key: string): Option<Json> {
    if v.JObj? && key in v.fields then Some(v.fields[key]) else None
  }
}
