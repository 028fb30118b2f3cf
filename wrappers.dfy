/** Success/failure carriers for the error returns of the modelled Go code. */
module Wrappers {

  datatype Option<+T> = None | Some(value: T)

  /** A value or an error: Go's `(T, error)` pair. */
  datatype Result<+T, +E> = Success(value: T) | Failure(error: E)

  /** Success without a value, or an error: Go's bare `error` return. */
  datatype Outcome<+E> = Pass | Fail(error: E)
}
