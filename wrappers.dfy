/** Option and Result values standing in for Kotlin's nullable results and thrown errors. */
module Wrappers {

  /** `None` plays the part of Kotlin's `null`. */
  datatype Option<+T> = None | Some(value: T)

  /** `Failure` plays the part of an exception raised by the callee. */
  datatype Result<+R, +E> = Success(value: R) | Failure(error: E)
}
