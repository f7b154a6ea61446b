/** Option and Result values shared by the model's modules. */
module Wrappers {

  /** A value that may be absent: `undefined`/`null` in the source. */
  datatype Option<+T> = None | Some(value: T) {
    function GetOr(default: T): T {
      match this
      case Some(v) => v
      case None => default
    }
  }

  /** The outcome of a call that returns normally or throws. */
  datatype Result<+R, +E> = Success(value: R) | Failure(error: E)
}
