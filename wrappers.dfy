/** Failure-carrying result types shared by every layer. */
module Wrappers {

  datatype Option<+T> = None | Some(value: T)

  /** A value or the error a Go function returns beside its zero value. */
  datatype Result<+R, +E> = Success(value: R) | Failure(error: E)

  /** A Go function that returns only an `error`: nil is Pass. */
  datatype Outcome<+E> = Pass | Fail(error: E)
}
