/** The JavaScript values the route handlers read from a request body or a
    store snapshot: a field is either absent (`undefined` or `null`) or holds a
    value, and the handlers test fields with JavaScript's truthiness.
 */
module JsValues {

  /** A field that may be absent. */
  datatype Option<+T> = None | Some(value: T)

  /** `!!s` for a string field: absent and the empty string are falsy. */
  predicate StringTruthy(s: Option<string>) {
    s.Some? && s.value != ""
  }

  /** `!!x` for a numeric field: absent and zero are falsy. */
  predicate NumberTruthy(x: Option<real>) {
    x.Some? && x.value != 0.0
  }

  /** `s || fallback` for a string field. */
  function OrElse(s: Option<string>, fallback: string): string {
    if StringTruthy(s) then s.value else fallback
  }
}
