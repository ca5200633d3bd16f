/** Optional values and results with an error, shared by the other modules. */
module Wrappers {

  /** A value that may be missing (JavaScript `undefined` or `null`). */
  datatype Option<+T> = None | Some(value: T)

  /** The outcome of a request that may fail with an error. */
  datatype Result<+T, +E> = Success(value: T) | Failure(error: E)
}
