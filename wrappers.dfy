/** Optional values and success/failure results shared by the modules of the model. */
module Wrappers {

  /** A value that may be absent (JavaScript's `undefined` / `null`). */
  datatype Option<+T> = None | Some(value: T)

  /** The outcome of an operation that can fail, in place of a thrown exception. */
  datatype Result<+R, +E> = Success(value: R) | Failure(error: E)
}
