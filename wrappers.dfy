/** Optional values and success/failure outcomes, used for the JSON fields that may be
    absent and for upstream calls that may throw. */
module Wrappers {

  datatype Option<+T> = None | Some(value: T)

  datatype Result<+R, +E> = Success(value: R) | Failure(error: E)
}
