/** Option and Result: the model's stand-ins for JavaScript's null/undefined and thrown errors. */
module Wrappers {

  datatype Option<+T> = None | Some(value: T) {
    function GetOr(default: T): T {
      match this
      case Some(v) => v
      case None => default
    }
  }

  /** A computation that either returns a value or throws an error with a message. */
  datatype Result<+T> = Ok(value: T) | Err(error: string)
}
