/** Option and Result, used for the nullable values and the success/failure
    responses of the modelled services. */
module Wrappers {

  /** A value that may be absent (`null` / `undefined` in the source). */
  datatype Option<+T> = None | Some(value: T) {

    /** Returns the value encapsulated in Some, or `default` when None. */
    function GetOr(default: T): T {
      match this
      case Some(v) => v
      case None => default
    }
  }

  /** A success value or an error message, as the services resolve their promises. */
  datatype Result<+R, +E> = Success(value: R) | Failure(error: E)
}
