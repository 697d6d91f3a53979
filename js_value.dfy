/**
 * JavaScript values as the fast-variable tables, the formatter and the data
 * store options hold them, with the two JavaScript operations the rest of the
 * model leans on: truthiness and `a || b`.
 */
module JsValue {

  datatype Option<+T> = None | Some(value: T) {
    /** The value, or `default` when absent (a JavaScript default parameter). */
    function GetOr(default: T): T {
      match this
      case Some(v) => v
      case None => default
    }
  }

  datatype Result<+T, +E> = Ok(value: T) | Err(error: E)

  /**
   * A JavaScript value. Numbers are restricted to integers: every number the
   * modelled code compares, stores or tests for truthiness is a count, a flag
   * level or a limit.
   */
  datatype Value =
    | Undefined
    | Null
    | Bool(b: bool)
    | Num(n: int)
    | Str(s: string)
    | Arr(items: seq<Value>)
    | Obj

  /** JavaScript truthiness: `undefined`, `null`, `false`, `0` and `''` are falsy. */
  predicate Truthy(v: Value) {
    match v
    case Undefined => false
    case Null => false
    case Bool(b) => b
    case Num(n) => n != 0
    case Str(s) => s != ""
    case Arr(_) => true
    case Obj => true
  }

  /** `a || b`: the first operand when it is truthy, otherwise the second. */
  function Or(a: Value, b: Value): (r: Value)
    ensures r == a || r == b
    ensures Truthy(r) <==> Truthy(a) || Truthy(b)
    ensures Truthy(a) ==> r == a
    ensures !Truthy(a) ==> r == b
  {
    if Truthy(a) then a else b
  }

  /** The property read `m[k]` on a plain record: a missing key reads as `undefined`. */
  function Prop(m: map<string, Value>, k: string): Value {
    if k in m then m[k] else Undefined
  }
}
