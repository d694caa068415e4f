/**
 * Optional values as the JavaScript code sees them: a field that may be
 * missing (`undefined`), the truthiness test `if (x)` / `!x`, the `a || b`
 * fallback chain and string concatenation of a possibly missing value.
 */
module JsValues {

  datatype Option<+T> = None | Some(value: T)

  /** A computation that either returned a value or threw an `Error` carrying `message`. */
  datatype Result<+T> = Ok(value: T) | Err(message: string)

  /** `!!x` for an optional string: a missing value and "" are both falsy. */
  predicate Truthy(o: Option<string>) {
    o.Some? && o.value != ""
  }

  /** `a || b` on optional strings: `a` when it is truthy, otherwise `b` as it is. */
  function Or(a: Option<string>, b: Option<string>): (r: Option<string>)
    ensures Truthy(a) ==> r == a
    ensures !Truthy(a) ==> r == b
    ensures Truthy(r) <==> Truthy(a) || Truthy(b)
  {
    if Truthy(a) then a else b
  }

  /** `a || "fallback"`: the result is always a non-empty string when the fallback is. */
  function OrDefault(a: Option<string>, fallback: string): (r: string)
    ensures Truthy(a) ==> r == a.value
    ensures !Truthy(a) ==> r == fallback
    ensures fallback != "" ==> r != ""
  {
    if Truthy(a) then a.value else fallback
  }

  /** What `'...' + x` prints for a possibly missing string `x`. */
  function JsString(o: Option<string>): (r: string)
    ensures o.Some? ==> r == o.value
    ensures o.None? ==> r == "undefined"
  {
    match o
    case Some(s) => s
    case None => "undefined"
  }
}
