/** Go's nil pointers, `(value, error)` pairs and `error` returns as datatypes:
    `Option`, `Result` and `Outcome` (an `error` that is either nil or set). */
module Wrappers {

  datatype Option<+T> = None | Some(value: T) {
    /** Go's swag.XxxValue helpers: the pointed-to value, or the zero value for nil. */
    function GetOr(default: T): T {
      match this
      case Some(v) => v
      case None => default
    }
  }

  datatype Result<+R, +E> = Success(value: R) | Failure(error: E)

  /** A Go `error` return: nil (`Pass`) or an error value (`Fail`). */
  datatype Outcome<+E> = Pass | Fail(error: E)
}
