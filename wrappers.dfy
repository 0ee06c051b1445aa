/** Failure-carrying values used in place of Java's null and exceptions. */
module Wrappers {

  /** A value that may be absent (Java's `Optional` or a nullable reference). */
  datatype Option<+T> = None | Some(value: T) {

    /** The value, or `default` when absent (`Optional.orElse`). */
    function GetOr(default: T): T {
      match this
      case Some(v) => v
      case None => default
    }
  }

  /** Either a value or the exception a call throws. */
  datatype Result<+T, +E> = Success(value: T) | Failure(error: E)

  /** The outcome of a `void` call: it returns normally or throws. */
  datatype Outcome<+E> = Pass | Fail(error: E)
}
