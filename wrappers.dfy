/** Result types for the store's thrown errors. */
module Wrappers {

  datatype Option<+T> = None | Some(value: T)

  /** `Failure` stands for an operation that throws; `Success` for one that returns normally. */
  datatype Result<+T, +E> = Success(value: T) | Failure(error: E)

  /** The same for an operation that returns nothing. */
  datatype Outcome<+E> = Pass | Fail(error: E)
}
