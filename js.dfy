/** The small part of JavaScript's value semantics that the front end relies on:
    optional values, the JSON values found in feature properties and statistics,
    truthiness (the `||` and `&&` fallbacks) and `Math.abs`. */
module Js {

  datatype Option<+T> = None | Some(value: T)

  /** A property value as the backend sends it: a number, a string or `null`,
      with `Undefined` for a missing property. Booleans, arrays and objects are
      not modelled.
      Numbers are finite reals: NaN and the infinities never occur in the data. */
  datatype JsValue = Undefined | Null | Num(n: real) | Str(s: string)

  /** JavaScript truthiness: `undefined`, `null`, `0` and `""` are falsy. */
  predicate Truthy(v: JsValue)
  {
    match v
    case Undefined => false
    case Null => false
    case Num(n) => n != 0.0
    case Str(s) => s != ""
  }

  /** `obj[key]` on a plain object: a missing key reads as `undefined`. */
  function Get(obj: map<string, JsValue>, key: string): (v: JsValue)
    ensures key !in obj ==> v == Undefined
    ensures key in obj ==> v == obj[key]
  {
    if key in obj then obj[key] else Undefined
  }

  /** `a || b`: the first operand when it is truthy, otherwise the second. */
  function Or(a: JsValue, b: JsValue): (r: JsValue)
    ensures Truthy(a) ==> r == a
    ensures !Truthy(a) ==> r == b
  {
    if Truthy(a) then a else b
  }

  function Abs(x: real): (r: real)
    ensures r >= 0.0
    ensures r == x || r == -x
  {
    if x < 0.0 then -x else x
  }
}
