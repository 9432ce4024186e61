/** Optional values and results with an error, shared by the other modules. */
module Wrappers {

  /** A value that may be absent (Swift's `T?`). */
  datatype Option<+T> = None | Some(value: T)

  /** The outcome of an operation that may fail (a Swift `Single` either succeeds or errs). */
  datatype Result<+R, +E> = Success(value: R) | Failure(error: E)
}
