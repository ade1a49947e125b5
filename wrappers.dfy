/** Failure-carrying values shared by every module of the model. */
module Wrappers {

  /** A value that may be missing (a Go nil reference or an absent result). */
  datatype Option<+T> = None | Some(value: T)

  /** A value or the text of the Go `error` that replaced it. */
  datatype Result<+T> = Success(value: T) | Failure(error: string)

  /** The outcome of a Go call that returns only an `error`. */
  datatype Outcome = Ok | Err(error: string)
}
