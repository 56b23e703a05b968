/** Optional values and results, used throughout the model. */
module Wrappers {

  /** An optional value: `undefined` or an absent member in the client's terms. */
  datatype Option<+T> = None | Some(value: T)

  /** The outcome of an operation that can throw: a value or the error it throws. */
  datatype Result<+R, +E> = Success(value: R) | Failure(error: E)
}
