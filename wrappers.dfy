/** Optional values and success-or-error results, used for Python's
    exceptions and for lookups that may miss. */
module Wrappers {

  datatype Option<+T> = None | Some(value: T)

  datatype Result<+R, +E> = Success(value: R) | Failure(error: E)
}
