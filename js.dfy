/**
 * JavaScript value conventions the request handlers rely on: values that may be
 * `undefined`/`null`, the `||` fallback on falsy strings, `String.prototype.includes`,
 * and errors thrown by the libraries behind the handlers.
 */
module Js {

  /** A value that may be absent (`undefined` or `null`). */
  datatype Option<+T> = None | Some(value: T) {
    function GetOr(default: T): (r: T)
      ensures Some? ==> r == value
      ensures None? ==> r == default
    {
      match this
      case Some(v) => v
      case None => default
    }
  }

  datatype Result<+T, +E> = Ok(value: T) | Err(error: E)

  /** A string value is truthy unless it is absent or the empty string. */
  predicate Truthy(s: Option<string>) {
    s.Some? && s.value != ""
  }

  /** `s || fallback` */
  function OrElse(s: Option<string>, fallback: string): (r: string)
    ensures Truthy(s) ==> r == s.value
    ensures !Truthy(s) ==> r == fallback
  {
    if Truthy(s) then s.value else fallback
  }

  /** `s.includes(sub)`: `sub` occurs in `s` at some position. */
  predicate Includes(s: string, sub: string)
    decreases |s|
  {
    sub <= s || (s != [] && Includes(s[1..], sub))
  }

  /** An error thrown by a library call; its `message` may be missing. */
  datatype Fault = Fault(message: Option<string>)
}
