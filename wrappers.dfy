/** Option and Result values standing for Go's nil interfaces and panics. */
module Wrappers {

  /** A value that may be absent (an untyped nil interface in Go). */
  datatype Option<+T> = None | Some(value: T)

  /** The outcome of an operation that Go ends with a panic on failure. */
  datatype Result<+R, +E> = Success(value: R) | Failure(error: E)
}
