/** Option and Result, the two shapes a Go `(value, error)` pair or a nil pointer take in this model. */
module Wrappers {

  /** A value that may be absent: a nil pointer, a nil `error`, an optional argument. */
  datatype Option<T> = None | Some(value: T)

  /** The outcome of an operation that either yields a value or fails with an error. */
  datatype Result<T, E> = Success(value: T) | Failure(error: E)
}
