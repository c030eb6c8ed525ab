/** Option and Result values shared by the modules of this model. */
module Wrappers {

  /** A value that may be absent (an optional field, `undefined`). */
  datatype Option<+T> = None | Some(value: T) {
    function GetOr(default: T): T {
      match this
      case Some(v) => v
      case None => default
    }
  }

  /** The outcome of a validation: the parsed value or the reason it was refused. */
  datatype Result<+R, +E> = Ok(value: R) | Err(error: E)
}
