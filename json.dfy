/**
  The value `JSON.parse` hands to the validator, and the two pieces of
  JavaScript semantics the validator relies on: property lookup, where a
  missing key reads as `undefined`, and truthiness.
 */
module JsonValue {

  datatype Option<+T> = None | Some(value: T)

  /** A parsed JSON document. Objects are maps, so a key occurs at most once
      (for a duplicated key `JSON.parse` keeps the last occurrence). Numbers
      are never inspected by the validator; they are kept as exact reals. */
  datatype Json =
    | Null
    | Bool(b: bool)
    | Number(n: real)
    | String(s: string)
    | Array(items: seq<Json>)
    | Object(fields: map<string, Json>)

  /** `obj[key]` on a parsed object: `None` stands for `undefined`, which is
      what JavaScript yields for a key the object does not have. */
  function Get(fields: map<string, Json>, key: string): (r: Option<Json>)
    ensures r.Some? <==> key in fields
    ensures r.Some? ==> r.value == fields[key]
  {
    if key in fields then Some(fields[key]) else None
  }

  /** JavaScript truthiness of a (possibly undefined) JSON value: `undefined`
      and `null` are falsy, every object and array is truthy. */
  predicate Truthy(v: Option<Json>)
    ensures Truthy(v) ==> v.Some? && !v.value.Null?
    ensures v.Some? && (v.value.Object? || v.value.Array?) ==> Truthy(v)
  {
    match v
    case None => false
    case Some(Null) => false
    case Some(Bool(b)) => b
    case Some(Number(n)) => n != 0.0
    case Some(String(s)) => s != ""
    case Some(Array(_)) => true
    case Some(Object(_)) => true
  }
}
