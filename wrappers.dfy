/** Option and Outcome types shared by every module of the model. */
module Wrappers {

  /** A value that may be absent: C#'s `null` reference or an unset `Nullable<T>`. */
  datatype Option<+T> = None | Some(value: T) {

    /** The value, or the given default when absent (C#'s `??`). */
    function GetOr(default: T): T {
      match this
      case Some(v) => v
      case None => default
    }
  }

  /** The exceptions the modelled code can raise. */
  datatype Exception =
    | ArgumentNull(parameter: string)
    | ArgumentDuplicateKey(key: string)
    | InvalidOperation(message: string)
    | NullReference
    | ConversionFailed(message: string)

  /** A computation that either returns a value or throws. */
  datatype Result<+T> = Ok(value: T) | Throws(error: Exception)
}
