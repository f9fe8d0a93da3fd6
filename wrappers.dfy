/** Nullable values and failing computations. */
module Wrappers {

  /** A value that may be absent (PHP's null). */
  datatype Option<+T> = None | Some(value: T)

  /** The outcome of a computation that can abort with an error. */
  datatype Result<+T, +E> = Success(value: T) | Failure(error: E)
}
