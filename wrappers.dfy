/** Optional values (a key a Python dict may or may not hold) and results
    that carry either a value or the exception Python would raise. */
module Wrappers {
  datatype Option<+T> = None | Some(value: T)

  datatype Result<+T, +E> = Success(value: T) | Failure(error: E)
}
