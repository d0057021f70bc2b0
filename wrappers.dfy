/** Optional values (a pandas cell that holds NaN is `None`) and results of steps that can fail. */
module Wrappers {
  datatype Option<+T> = None | Some(value: T)

  datatype Result<+T, +E> = Success(value: T) | Failure(error: E)
}
