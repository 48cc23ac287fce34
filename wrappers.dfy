/** Optional values, for Python's `None`-or-value results, and results
    that may instead carry the message of a raised exception. */
module Wrappers {

  datatype Option<T> = None | Some(value: T)

  datatype Result<T> = Success(value: T) | Failure(error: string)
}
