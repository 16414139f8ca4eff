/** Optional values and the outcome of a call that may throw. */
module Wrappers {

  /** Swift's `T?`: a value that may be absent (`nil`). */
  datatype Option<T> = None | Some(value: T)

  /** The outcome of a `throws` function that returns nothing: it either returns
      normally or throws `error`. */
  datatype Outcome<E> = Pass | Fail(error: E)

  /** The outcome of a `throws` function that returns a value. */
  datatype Result<R, E> = Success(value: R) | Failure(error: E)
}
