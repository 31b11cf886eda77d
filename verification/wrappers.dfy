/** Failure-carrying datatypes used by the ledger operations. */
module Wrappers {

  /** A value that may be absent (a `null` DOM value, a `NaN` parse). */
  datatype Option<+T> = None | Some(value: T) {
    function GetOr(default: T): T {
      match this
      case Some(v) => v
      case None => default
    }
  }

  /** A check that either passes or reports one error. */
  datatype Outcome<+E> = Pass | Fail(error: E)

  /** A computed value or the error that prevented it. */
  datatype Result<+R, +E> = Success(value: R) | Failure(error: E)
}
