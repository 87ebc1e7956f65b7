/** Option and result types shared by the other modules. */
module Wrappers {

  /** A value that may be absent: an unset request field, a lookup that found nothing. */
  datatype Option<+T> = None | Some(value: T) {
    /** The wrapped value, or `default` when absent. */
    function GetOr(default: T): T {
      match this
      case Some(v) => v
      case None => default
    }
  }

  /** Either a value or a named error. */
  datatype Result<+R, +E> = Success(value: R) | Failure(error: E)

  /** Success without a value, or a named error. */
  datatype Outcome<+E> = Pass | Fail(error: E)
}
