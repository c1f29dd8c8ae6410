/** Failure-carrying wrappers shared by every module of the model. */
module Common {

  /** A value that may be absent: Python's `None` versus a present value. */
  datatype Option<+T> = None | Some(value: T) {
    function GetOr(default: T): T {
      match this
      case Some(v) => v
      case None => default
    }
  }

  /** The outcome of a Python call that either returns or raises; the error
      is the rendered exception (`TypeError: ...`). */
  datatype Result<+T> = Ok(value: T) | Err(error: string)
}
