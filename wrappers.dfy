/** Optional values and fallible results, used for Python's `None` and for
    the exceptions the modelled code raises. */
module Wrappers {
  datatype Option<+T> = None | Some(value: T)

  datatype Result<+R, +E> = Success(value: R) | Failure(error: E)
}
