/**
 * The JavaScript values that flow through the hook and the audit logger, and
 * JavaScript's truthiness test (`if (x)`, `x || y`, `!x`), which both files use to
 * decide whether an optional field was given.
 */
module JsValues {

  /** A JavaScript value. Numbers are exact reals (NaN is not modelled). */
  datatype Value =
    | Undefined
    | Null
    | Bool(b: bool)
    | Num(n: real)
    | Str(s: string)
    | Obj(fields: map<string, Value>)

  /** JavaScript truthiness: `undefined`, `null`, `false`, `0` and `""` are falsy; every object is truthy. */
  predicate Truthy(v: Value)
  {
    match v
    case Undefined => false
    case Null => false
    case Bool(b) => b
    case Num(n) => n != 0.0
    case Str(s) => s != ""
    case Obj(_) => true
  }

  /** `a || b`: `a` when it is truthy, `b` otherwise. */
  function Or(a: Value, b: Value): Value
  {
    if Truthy(a) then a else b
  }

  /** Property access `obj[key]` on a plain object: `undefined` when the key is absent. */
  function Get(obj: map<string, Value>, key: string): Value
  {
    if key in obj then obj[key] else Undefined
  }
}
