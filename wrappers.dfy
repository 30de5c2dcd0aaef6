/** Option and Result, used for JavaScript's `null`/`undefined` and for thrown errors. */
module Wrappers {

  /** `None` stands for a missing, `null` or `undefined` value. */
  datatype Option<+T> = None | Some(value: T) {
    function GetOr(default: T): T {
      match this
      case Some(v) => v
      case None => default
    }
  }

  /** A value or the message of the error that was raised instead. */
  datatype Result<+T> = Ok(value: T) | Err(message: string)
}
