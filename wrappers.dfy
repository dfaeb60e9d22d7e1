/** Optional values and results with an error, used where the adapter
    may have no value or may fail. */
module Wrappers {

  datatype Option<+T> = None | Some(value: T)

  datatype Result<+R, +E> = Success(value: R) | Failure(error: E)

  /** The outcome of an operation that returns nothing on success. */
  datatype Outcome<+E> = Pass | Fail(error: E)
}
