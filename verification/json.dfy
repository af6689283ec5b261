/** Decoded JSON values and the few Python operations the core applies to them. */
module Json {
  import opened Wrappers

  /** A value produced by `resp.json()`; objects are Python dicts with string keys. */
  datatype Json =
    | JNull
    | JBool(b: bool)
    | JInt(i: int)
    | JFloat(f: real)
    | JStr(s: string)
    | JList(items: seq<Json>)
    | JObj(fields: map<string, Json>)

  /** Python truthiness. */
  predicate Truthy(j: Json) {
    match j
    case JNull => false
    case JBool(b) => b
    case JInt(i) => i != 0
    case JFloat(f) => f != 0.0
    case JStr(s) => s != ""
    case JList(items) => items != []
    case JObj(fields) => |fields| != 0
  }

  /** `d.get(key)`: a missing key reads as `None`. */
  function Get(d: map<string, Json>, key: string): (r: Json)
    ensures key !in d ==> r == JNull
  {
    if key in d then d[key] else JNull
  }

  /** Python's `a or b`. */
  function Or(a: Json, b: Json): (r: Json)
    ensures Truthy(r) <==> Truthy(a) || Truthy(b)
  {
    if Truthy(a) then a else b
  }

  /** `float(v)` when `isinstance(v, (int, float))`, which in Python includes `bool`. */
  function AsNumber(j: Json): Option<real> {
    match j
    case JInt(i) => Some(i as real)
    case JFloat(f) => Some(f)
    case JBool(b) => Some(if b then 1.0 else 0.0)
    case _ => None
  }
}
