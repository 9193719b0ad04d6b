// Optional values, used where the source has `undefined` or `null`.
module Wrappers {

  datatype Option<+T> = None | Some(value: T) {
    function GetOr(default: T): T {
      match this
      case Some(v) => v
      case None => default
    }
  }

  /** The outcome of a call that may throw: its value, or the message of
      the error it throws. */
  datatype Result<+T> = Success(value: T) | Failure(error: string)
}
