/** Optional values and results, used where the source has `null` or throws. */
module Wrappers {

  /** A value that may be absent: the source's `x | null`. */
  datatype Option<+T> = None | Some(value: T)

  /** The outcome of an operation that either produces a value or fails with an error. */
  datatype Result<+R, +E> = Success(value: R) | Failure(error: E)
}
