/**
  JavaScript value conventions shared by the server and the client.

  A request field, a header or an object property that may be absent is an
  `Option<string>`; `Truthy` and `Or` give the meaning of JavaScript's `!x`
  and `x || d` on such a value (an absent value and the empty string are both
  falsy).
 */
module Js {

  datatype Option<+T> = None | Some(value: T)

  datatype Result<+T, +E> = Ok(value: T) | Err(error: E)

  /** `Boolean(x)` for a string that may be absent. */
  predicate Truthy(x: Option<string>) {
    x.Some? && x.value != ""
  }

  /** `x || d` for a string that may be absent. */
  function Or(x: Option<string>, d: string): (r: string)
    ensures Truthy(x) ==> r == x.value
    ensures !Truthy(x) ==> r == d
  {
    if Truthy(x) then x.value else d
  }
}
