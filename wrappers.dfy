/** Swift optionals and error returns, as the rest of the model uses them. */
module Wrappers {

  /** A Swift `T?`: `nil` is `None`. */
  datatype Option<+T> = None | Some(value: T) {

    /** Swift's `x ?? default`. */
    function GetOr(default: T): T
    {
      match this
      case Some(v) => v
      case None => default
    }
  }

  /** A validation outcome: the checked value, or the message the form shows. */
  datatype Result<+R, +E> = Success(value: R) | Failure(error: E)
}
