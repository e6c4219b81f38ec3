/** Optional values and results with an error, shared by every module of the model. */
module Wrappers {

  datatype Option<+T> = None | Some(value: T)

  /** A computation that either produced a value or raised an exception `error`. */
  datatype Result<+T, +E> = Success(value: T) | Failure(error: E)
}
