/**
 * Values as the JavaScript handlers see them: fields that may be absent,
 * calls to outside services that either return a value or throw, and the
 * truthiness tests (`if (x)`, `a || b`) the handlers branch on.
 */
module JsValues {

  /** A field that may be `undefined`/`null` (None) or present (Some). */
  datatype Option<+T> = None | Some(value: T)

  /** The settled result of an awaited call: a value, or an Error carrying `message`. */
  datatype Outcome<+T> = Ok(value: T) | Err(message: string)

  /** A string field is truthy when it is present and not the empty string. */
  predicate Truthy(s: Option<string>) {
    s.Some? && s.value != ""
  }

  /** `a || b` on two optional strings: `a` when it is truthy, otherwise `b`. */
  function Or(a: Option<string>, b: Option<string>): (r: Option<string>)
    ensures r == a || r == b
    ensures Truthy(r) <==> Truthy(a) || Truthy(b)
  {
    if Truthy(a) then a else b
  }

  /** `a || fallback` where the fallback is a string literal. */
  function OrElse(a: Option<string>, fallback: string): (r: string)
    ensures Truthy(a) ==> r == a.value
    ensures fallback != "" ==> r != ""
  {
    if Truthy(a) then a.value else fallback
  }
}
