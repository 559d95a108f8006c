/** Nullable values and query outcomes, shared by every module of the model. */
module Wrappers {

  /** A nullable column or optional property: `None` stands for both `null` and `undefined`. */
  datatype Option<+T> = None | Some(value: T) {

    /** The value, or `default` when there is none. */
    function GetOr(default: T): T {
      match this
      case Some(v) => v
      case None => default
    }
  }

  /** What a backend query returns: its rows, or the error it reported. */
  datatype Result<+T> = Ok(value: T) | Err(message: string) {

    /** The error-tolerant reading used throughout the hooks: an error reads as "no data". */
    function ToOption(): Option<T> {
      match this
      case Ok(v) => Some(v)
      case Err(_) => None
    }
  }
}
