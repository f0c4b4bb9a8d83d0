/**
 * JSON values as JavaScript code sees them once parsed, with the few JavaScript
 * operators the core applies to them: `??`, truthiness and property reads.
 * Numbers are integers here; floating point is not modelled.
 */
module Json {
  import opened Wrappers
  import opened Dict

  datatype Json =
    | JNull
    | JBool(b: bool)
    | JNumber(n: int)
    | JString(s: string)
    | JArray(items: seq<Json>)
    | JObject(fields: Dict<Json>)

  /** The `isobject` test: neither null nor an array. */
  predicate IsObject(j: Json) {
    j.JObject?
  }

  /** JavaScript truthiness. */
  predicate Truthy(j: Json) {
    match j
    case JNull => false
    case JBool(b) => b
    case JNumber(n) => n != 0
    case JString(s) => s != ""
    case _ => true
  }

  /** `undefined` or `null`: the values `??` and `?.` fall through on. */
  predicate Nullish(a: Option<Json>) {
    a.None? || a == Some(JNull)
  }

  /** `a ?? d`, where `None` stands for `undefined`: only `undefined` and `null` fall back to `d`. */
  function Coalesce(a: Option<Json>, d: Json): (r: Json)
    ensures a.None? || a == Some(JNull) ==> r == d
    ensures a.Some? && a.value != JNull ==> r == a.value
  {
    match a
    case Some(v) => if v == JNull then d else v
    case None => d
  }

  /** `v.k` on a value other than null: an object's entry, and no such property on other values. */
  function Prop(v: Json, k: string): (r: Option<Json>)
    ensures r.Some? <==> v.JObject? && k in Keys(v.fields)
  {
    if v.JObject? then Get(v.fields, k) else None
  }

  /** `v?.k`: `undefined` when `v` is `undefined` or `null`. */
  function OptionalProp(v: Option<Json>, k: string): (r: Option<Json>)
    ensures r.Some? ==> v.Some? && v.value.JObject?
  {
    match v
    case Some(j) => if j == JNull then None else Prop(j, k)
    case None => None
  }
}
