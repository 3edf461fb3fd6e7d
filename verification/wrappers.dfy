/** Optional values and success/failure results, used for Go's nil pointers,
    missing JSON fields and `(value, error)` returns. */
module Wrappers {

  datatype Option<+T> = None | Some(value: T)

  datatype Result<+R, +E> = Success(value: R) | Failure(error: E)
}
