/** JavaScript values as the exchange front end sees them: parsed JSON
    payloads, `undefined` (an absent property, `None`), the truthiness that
    the `||` and `!` operators of the source test, and optional chaining
    `?.`, which stops only on `null` and `undefined`. */
module Js {

  datatype Option<+T> = None | Some(value: T)

  /** A parsed JSON value. Numbers are reals; `NaN` is not modelled. */
  datatype Json =
    | Null
    | Bool(b: bool)
    | Num(n: real)
    | Str(s: string)
    | Arr(items: seq<Json>)
    | Obj(fields: map<string, Json>)

  /** JavaScript truthiness of a possibly-undefined value: `undefined`,
      `null`, `false`, `0` and `""` are falsy; every array and every object,
      empty or not, is truthy. */
  predicate Truthy(v: Option<Json>)
  {
    match v
    case None => false
    case Some(Null) => false
    case Some(Bool(b)) => b
    case Some(Num(n)) => n != 0.0
    case Some(Str(s)) => s != ""
    case Some(Arr(_)) => true
    case Some(Obj(_)) => true
  }

  /** `v?.[key]` on a JSON value: an object's own field, and `undefined` for
      an absent field, for `undefined`/`null` (optional chaining stops there)
      and for strings, numbers, booleans and arrays. This is exact only for
      keys that neither an array nor a prototype carries: strings and arrays
      have `length`, arrays have their indices, and every object inherits
      the members of Object.prototype. It holds
      for "message" and "data", the only keys this model looks up. */
  function Get(v: Option<Json>, key: string): (r: Option<Json>)
    ensures r.Some? <==> v.Some? && v.value.Obj? && key in v.value.fields
    ensures r.Some? ==> r.value == v.value.fields[key]
  {
    match v
    case Some(Obj(fields)) => if key in fields then Some(fields[key]) else None
    case _ => None
  }

  /** `a || b` where `b` is known to be defined. */
  function Or(a: Option<Json>, b: Json): (r: Json)
    ensures Truthy(a) ==> r == a.value
    ensures !Truthy(a) ==> r == b
  {
    if Truthy(a) then a.value else b
  }
}
