/**
 * JavaScript values as the logger sees them: option fields, colour overrides
 * and the truthiness test behind every `if (x)` and `a || b` in the source.
 */
module Js {

  datatype Option<+T> = None | Some(value: T)

  /** The values a caller can put in an options object (NaN and objects are not modelled). */
  datatype Value = Undefined | Null | Bool(b: bool) | Number(n: int) | Str(s: string)

  /** ECMAScript ToBoolean on the modelled values. */
  predicate Truthy(v: Value)
  {
    match v
    case Undefined => false
    case Null => false
    case Bool(b) => b
    case Number(n) => n != 0
    case Str(s) => |s| > 0
  }

  /** The `a || b` operator: the left operand when it is truthy, else the right one. */
  function Or(a: Value, b: Value): (r: Value)
    ensures Truthy(r) <==> Truthy(a) || Truthy(b)
    ensures r == a || r == b
    ensures Truthy(a) ==> r == a
    ensures !Truthy(a) ==> r == b
  {
    if Truthy(a) then a else b
  }

  /** Property access `m[key]` on a plain object: `undefined` for a missing key. */
  function Get(m: map<string, Value>, key: string): (r: Value)
    ensures key !in m ==> r == Undefined
    ensures key in m ==> r == m[key]
  {
    if key in m then m[key] else Undefined
  }
}
