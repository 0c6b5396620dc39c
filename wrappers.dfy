/** Failure-carrying values used in place of Java's null references and thrown exceptions. */
module Wrappers {

  /** A value that may be absent: a nullable Java reference. */
  datatype Option<+T> = None | Some(value: T)

  /** The outcome of a service call: a result, or the exception it throws. */
  datatype Result<+T, +E> = Success(value: T) | Failure(error: E)
}
