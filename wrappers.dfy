/** Optional values and results with an error, for Python's `None` and
    for the exceptions the modelled functions raise. */
module Wrappers {

  datatype Option<+T> = None | Some(value: T)

  datatype Result<+T, +E> = Success(value: T) | Failure(error: E)
}
