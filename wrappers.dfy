/** Option and Result values standing in for JavaScript's `null`/`undefined`
    and for a thrown `Error` carrying a message. */
module Wrappers {

  datatype Option<T> = None | Some(value: T)

  /** `Err(message)` is an operation that threw `new Error(message)`. */
  datatype Result<T> = Ok(value: T) | Err(message: string)

  /** JavaScript's `error.message || fallback`: an empty message is falsy. */
  function MessageOr(message: string, fallback: string): (r: string)
    ensures r == message || r == fallback
    ensures r == "" ==> fallback == ""
  {
    if message != "" then message else fallback
  }

  /** JavaScript's `value || ''` for an optional string. */
  function TextOr(value: Option<string>): (r: string)
    ensures value.Some? ==> r == value.value
    ensures value.None? ==> r == ""
  {
    if value.Some? then value.value else ""
  }
}
