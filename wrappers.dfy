/** Failure-carrying result types used in place of Java's null returns and exceptions. */
module Wrappers {

  /** A value or nothing, in place of a Java reference that may be null. */
  datatype Option<+T> = None | Some(value: T)

  /** A value or the error that a Java method would have thrown instead. */
  datatype Result<+R, +E> = Success(value: R) | Failure(error: E)

  /** Completion of a Java `void` method: it returned normally or threw. */
  datatype Outcome<+E> = Pass | Fail(error: E)
}
