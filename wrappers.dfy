/** Optional values and results with an error, used for the per-axis
    resolvers and for construction. */
module Wrappers {
  datatype Option<+T> = None | Some(value: T)

  datatype Result<+R, +E> = Success(value: R) | Failure(error: E)
}
