/** Option and Result: the two shapes used for Python's `None` and for a raised exception. */
module Wrappers {

  datatype Option<+T> = None | Some(value: T) {
    function GetOr(default: T): T {
      match this
      case Some(v) => v
      case None => default
    }
  }

  /** The outcome of a Python call that may raise: `Err` carries the exception's kind. */
  datatype Result<+T> = Ok(value: T) | Err(error: string)
}
