/** Optional values and success-or-failure results, used where the source
    returns `undefined` or throws. */
module Wrappers {

  /** A value that may be absent (`undefined` in the source). */
  datatype Option<T> = None | Some(value: T)

  /** The outcome of an operation that either returns a value or throws. */
  datatype Result<T, E> = Success(value: T) | Failure(error: E)
}
