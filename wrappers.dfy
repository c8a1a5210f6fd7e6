/** Optional values and call outcomes, shared by every module of the model. */
module Wrappers {

  /** A value that may be absent (JavaScript `undefined` / `null`). */
  datatype Option<+T> = None | Some(value: T)

  /** The outcome of a call that may fail with an error value instead of returning. */
  datatype Result<+R, +E> = Success(value: R) | Failure(error: E)
}
