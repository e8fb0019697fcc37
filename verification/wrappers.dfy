/** Failure-compatible wrappers shared by the schema and session modules. */
module Wrappers {

  /** A value that may be absent. */
  datatype Option<+T> = None | Some(value: T)

  /** The value a Java method returns, or the exception it throws instead. */
  datatype Result<+T, +E> = Success(value: T) | Failure(error: E)

  /** Normal completion of a `void` Java method, or the exception it throws. */
  datatype Outcome<+E> = Pass | Fail(error: E)
}
