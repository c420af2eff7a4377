/** Failure-compatible wrappers shared by the other modules. */
module Wrappers {

  /** A value that may be absent (JavaScript's `undefined` / `null`). */
  datatype Option<+T> = None | Some(value: T)

  /** Either a value or the error a computation stopped with. */
  datatype Result<+T, +E> = Ok(value: T) | Err(error: E)
}
