/** Optional values and results with an error message, shared by the other modules. */
module Wrappers {

  /** A value that may be absent (JavaScript's `undefined` / Redis's `nil`). */
  datatype Option<+T> = None | Some(value: T)

  /** The outcome of a call that may throw: the value, or the message of the thrown error. */
  datatype Result<+T, +E> = Ok(value: T) | Err(error: E)
}
