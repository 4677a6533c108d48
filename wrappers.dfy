/** Optional values and results with an error channel, shared by every module. */
module Wrappers {

  /** A value that may be absent (JavaScript `undefined`, `null` or an empty match). */
  datatype Option<+T> = None | Some(value: T)

  /** The outcome of a call that either returns a value or throws. */
  datatype Result<+T, +E> = Success(value: T) | Failure(error: E)
}
