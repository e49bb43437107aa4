/** Optional values and failure-carrying results, used wherever a lookup
    may miss or an operation may fail with a named error. */
module Wrappers {

  datatype Option<+T> = None | Some(value: T)

  datatype Result<+R, +E> = Success(value: R) | Failure(error: E)
}
