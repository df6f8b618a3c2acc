/** Failure-compatible values shared by the backend and client models. */
module Wrappers {

  /** A value that may be absent: Python's `None`, JavaScript's `null`/`undefined`. */
  datatype Option<+T> = None | Some(value: T) {
    function GetOr(default: T): (r: T)
      ensures Some? ==> r == value
      ensures None? ==> r == default
    {
      match this
      case Some(v) => v
      case None => default
    }
  }

  /** The outcome of a client-side asynchronous call: a value, or a thrown error's `message`. */
  datatype Result<+T> = Ok(value: T) | Err(message: string)
}
