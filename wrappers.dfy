/** Option and Result, the stand-ins for Java's null and for a thrown exception. */
module Wrappers {

  datatype Option<+T> = None | Some(value: T)

  datatype Result<+T, +E> = Success(value: T) | Failure(error: E)

  /** The outcome of an external effect that returns nothing but may throw. */
  datatype Outcome = Pass | Fail(message: string)
}
