/** Shared vocabulary of the web inspector model: an optional value and the
    JSON values that component properties carry once the browser has parsed
    a response. */
module Base {

  /** A value that may be absent: `null`/`undefined` in the script. */
  datatype Option<+T> = None | Some(value: T) {

    /** The value, or `default` when absent: the script's `x || default`
        for values that are either an array or missing. */
    function GetOr(default: T): T {
      match this
      case Some(v) => v
      case None => default
    }
  }

  /** A parsed JSON value. Numbers are reals: `NaN` and the float rounding
      of the browser are not represented. */
  datatype Value =
    | Null
    | Bool(b: bool)
    | Num(x: real)
    | Str(s: string)
    | Obj(fields: map<string, Value>)

  /** JavaScript truthiness, as `if (v)` and `!v` test it. */
  predicate Truthy(v: Value) {
    match v
    case Null => false
    case Bool(b) => b
    case Num(x) => x != 0.0
    case Str(s) => s != ""
    case Obj(_) => true
  }

  /** A negative timer delay behaves as zero in `setTimeout`/`setInterval`. */
  function Clamp(delay: int): nat {
    if delay < 0 then 0 else delay
  }
}
