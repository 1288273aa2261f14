/** Optional values and outcomes that carry an error, shared by the other modules. */
module Wrappers {

  /** Python's `Optional[T]`: `None` or a value. */
  datatype Option<+T> = None | Some(value: T)

  /** The outcome of an operation that the source ends with a raised exception. */
  datatype Result<+T, +E> = Success(value: T) | Failure(error: E)
}
