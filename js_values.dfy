/** JavaScript values as the server handlers and the client see them, and the
    two ways the code tests them: truthiness (`!x`, `x || d`) and strict
    comparison with `undefined` (`x !== undefined`). */
module JsValues {

  /** An optional field (`x?: T` in TypeScript): absent, or present with a value. */
  datatype Option<+T> = None | Some(value: T) {
    function GetOr(default: T): T {
      match this
      case Some(v) => v
      case None => default
    }
  }

  /** A value decoded from JSON or produced by the SDK. Numbers are integers
      (no NaN, no fractions); an object or array is opaque and identified by a
      reference, so Dafny's `==` on JsVal is JavaScript's `===`. */
  datatype JsVal =
    | Undefined
    | Null
    | Bool(b: bool)
    | Num(n: int)
    | Str(s: string)
    | Obj(ref: nat)

  /** JavaScript truthiness: `!v` is `!Truthy(v)`. */
  predicate Truthy(v: JsVal) {
    match v
    case Undefined => false
    case Null => false
    case Bool(b) => b
    case Num(n) => n != 0
    case Str(s) => s != ""
    case Obj(_) => true
  }

  /** `a || b`: the left operand when it is truthy, else the right one. */
  function Or(a: JsVal, b: JsVal): JsVal {
    if Truthy(a) then a else b
  }
}
