/** Optional values and fallible results, as Swift's `T?` and `throws` are used by the accessors. */
module Wrappers {

  /** Swift's `Optional<T>`: `nil` or a wrapped value. */
  datatype Option<+T> = None | Some(value: T)

  /** The outcome of a throwing Swift function: a returned value or a thrown error. */
  datatype Result<+T, +E> = Success(value: T) | Failure(error: E)
}
