/** Option and Result, the failure-carrying values every module uses for
    Kotlin's nullable types and for thrown exceptions. */
module Wrappers {

  /** A nullable value: `None` stands for Kotlin's `null` or JavaScript's `undefined`. */
  datatype Option<+T> = None | Some(value: T) {
    /** Kotlin's elvis operator `x ?: default`. */
    function GetOr(default: T): T {
      match this
      case Some(v) => v
      case None => default
    }
  }

  /** The value an operation returns, or the exception it throws. */
  datatype Result<+T, +E> = Success(value: T) | Failure(error: E)

  /** An operation that returns nothing, or the exception it throws. */
  datatype Outcome<+E> = Pass | Fail(error: E)
}
