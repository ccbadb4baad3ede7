/** Failure-compatible wrappers shared by the native and the host models. */
module Wrappers {

  datatype Option<+T> = None | Some(value: T) {
    function GetOr(default: T): T {
      match this
      case Some(v) => v
      case None => default
    }
  }

  /** A value or an error; on the native side the error is the text an
      `anyhow::Error` displays, on the host side it is what is thrown. */
  datatype Result<+T, +E> = Ok(value: T) | Err(error: E)

  /** The outcome of an operation with no value (loading model weights). */
  datatype Load = Loaded | LoadFailed(reason: string)
}
