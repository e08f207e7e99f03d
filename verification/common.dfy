/** Option and Result values shared by every module of the model. */
module Common {

  /** A value that may be absent: Python's `None` (or pandas' NaN) is `None`. */
  datatype Option<+T> = None | Some(value: T) {
    function GetOr(default: T): T {
      match this
      case Some(v) => v
      case None => default
    }
  }

  /** The outcome of a step that may raise: `Err` carries the exception's kind. */
  datatype Result<+T, +E> = Ok(value: T) | Err(error: E)
}
