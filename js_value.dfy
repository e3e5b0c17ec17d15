/** JavaScript values as the slices see them: a field that may be missing
    (`undefined` or `null`, not distinguished here) and the truthiness
    rules behind the source's `x || y` and `if (x)` tests on strings. */
module JsValue {

  datatype Option<+T> = None | Some(value: T)

  /** A string value is truthy when it is present and not the empty string. */
  predicate Truthy(s: Option<string>)
  {
    s.Some? && s.value != ""
  }

  /** `a || b` on optional strings: `a` when it is truthy, otherwise `b`. */
  function Or(a: Option<string>, b: Option<string>): (r: Option<string>)
    ensures Truthy(a) ==> r == a
    ensures !Truthy(a) ==> r == b
    ensures Truthy(r) <==> Truthy(a) || Truthy(b)
  {
    if Truthy(a) then a else b
  }

  /** `a || fallback` where the fallback is a string literal. */
  function OrElse(a: Option<string>, fallback: string): (r: string)
    ensures Truthy(a) ==> r == a.value
    ensures !Truthy(a) ==> r == fallback
    ensures r != "" <==> Truthy(a) || fallback != ""
  {
    if Truthy(a) then a.value else fallback
  }
}
