/** Failure-carrying result types used across the model. */
module Wrappers {

  /** `None` stands for Java's `null` or for an exception a lookup throws. */
  datatype Option<+T> = None | Some(value: T)

  /** The outcome of an operation that can abort with an error. */
  datatype Result<+T, +E> = Success(value: T) | Failure(error: E)
}
