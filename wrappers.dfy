/** Failure-carrying values shared by the rest of the model. */
module Wrappers {

  /** A value that may be absent. */
  datatype Option<+T> = None | Some(value: T)

  /** A value, or the error that prevented computing it (Go's `(T, error)` pair). */
  datatype Result<+T, +E> = Ok(value: T) | Err(error: E)

  /** Success, or the error that was returned (Go's bare `error` result). */
  datatype Outcome<+E> = Pass | Fail(error: E)
}
