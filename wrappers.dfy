/** Optional values and results with an error, used for the source's `null`,
    `undefined` and thrown errors. */
module Wrappers {

  /** A value that may be absent: the source's `T | null`. */
  datatype Option<+T> = None | Some(value: T)

  /** The outcome of an operation that may fail with an error value. */
  datatype Result<+T, +E> = Success(value: T) | Failure(error: E)
}
