/** Optional values and results, standing for Swift's `T?` and `Result<T, E>` / `throws`. */
module Wrappers {

  datatype Option<+T> = None | Some(value: T)

  datatype Result<+T, +E> = Success(value: T) | Failure(error: E)
}
