/** Option and Result: a null reference and a thrown exception, as values. */
module Wrappers {

  /** `None` stands for a null reference. */
  datatype Option<+T> = None | Some(value: T)

  /** `Failure` stands for an exception thrown instead of returning a value. */
  datatype Result<+T, +E> = Success(value: T) | Failure(error: E)
}
