/** Optional values and error returns, standing for Go's nil pointers and `error` results. */
module Wrappers {

  datatype Option<+T> = None | Some(value: T)

  datatype Result<+R, +E> = Success(value: R) | Failure(error: E)
}
