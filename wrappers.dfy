/** The optional-value and result datatypes shared by the whole model. */
module Wrappers {

  /** A value that may be absent (a Go nil pointer or a missing result). */
  datatype Option<+T> = None | Some(value: T)

  /** Either a value or the error that replaced it (Go's `(T, error)` pair). */
  datatype Result<+T, +E> = Success(value: T) | Failure(error: E)
}
