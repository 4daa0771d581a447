/** Optional values and results that carry an error, shared by the other modules. */
module Wrappers {

  /** A value that may be absent (Python's `None`). */
  datatype Option<+T> = None | Some(value: T)

  /** The outcome of an operation that raises in the source: a value or the error raised. */
  datatype Result<+T, +E> = Success(value: T) | Failure(error: E)
}
