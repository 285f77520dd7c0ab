/** Option and Result values shared by the models below. */
module Wrappers {

  /** A value that may be absent: JavaScript's `undefined`, C++'s "no entry". */
  datatype Option<+T> = None | Some(value: T) {
    function GetOr(default: T): T {
      match this
      case Some(v) => v
      case None => default
    }
  }

  /** The outcome of an operation that can be refused with an error message. */
  datatype Result<+T> = Ok(value: T) | Err(message: string)
}
