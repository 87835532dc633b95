/** Option and the outcome of a call that either returns or throws an Error. */
module Wrappers {

  datatype Option<+T> = None | Some(value: T) {
    function GetOr(default: T): T {
      match this
      case Some(v) => v
      case None => default
    }
  }

  /** What an async handler does in the end: it returns, or it throws an Error carrying `message`. */
  datatype Outcome = Done | Thrown(message: string)
}
