/** Option and Result, the two wrappers the model uses for JavaScript's
    `null`/`undefined` fields and for thrown errors. */
module Wrappers {

  datatype Option<+T> = None | Some(value: T) {
    /** `x ?? fallback` */
    function GetOr(fallback: T): T {
      match this
      case Some(v) => v
      case None => fallback
    }
  }

  datatype Result<+R, +E> = Ok(value: R) | Err(error: E)
}
