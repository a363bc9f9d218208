/** Option, Result and Outcome: null references, exceptions and "completed normally or threw". */
module Wrappers {

  /** A Java reference that may be null. */
  datatype Option<+T> = None | Some(value: T) {
    function GetOr(default: T): T {
      match this
      case Some(v) => v
      case None => default
    }
  }

  /** A call that either returns a value or throws the given exception. */
  datatype Result<+R, +E> = Success(value: R) | Failure(error: E)

  /** A call without a result that either completes normally or throws. */
  datatype Outcome<+E> = Pass | Fail(error: E)
}
