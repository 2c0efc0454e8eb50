/** Option and Result, for values JavaScript leaves `null`/`undefined` and for thrown errors. */
module Wrappers {

  datatype Option<+T> = None | Some(value: T) {
    /** `x || d` on an optional value: the value when present, `d` otherwise. */
    function GetOr(default: T): T {
      match this
      case Some(v) => v
      case None => default
    }
  }

  /** The outcome of an operation that either returns a value or throws an error message. */
  datatype Result<+R> = Success(value: R) | Failure(error: string)
}
