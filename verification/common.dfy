/**
 * Shared vocabulary for the model: optional values and the JavaScript
 * truthiness rules that the client's guards (`if (day)`, `a || b`) rely on.
 */
module Common {

  /** A value that may be absent (`undefined`/`null` in the client). */
  datatype Option<+T> = None | Some(value: T) {

    /** The value, or `default` when absent. */
    function GetOr(default: T): T {
      match this
      case Some(v) => v
      case None => default
    }
  }

  /** JavaScript truthiness of an optional number: absent and 0 are falsy. */
  predicate Truthy(v: Option<int>) {
    v.Some? && v.value != 0
  }

  /** JavaScript truthiness of an optional string: absent and "" are falsy. */
  predicate TruthyText(s: Option<string>) {
    s.Some? && |s.value| > 0
  }

  /** JavaScript `a || b` on optional strings: the first truthy operand, else `b`. */
  function OrElse(a: Option<string>, b: Option<string>): (r: Option<string>)
    ensures TruthyText(a) ==> r == a
    ensures !TruthyText(a) ==> r == b
  {
    if TruthyText(a) then a else b
  }
}
