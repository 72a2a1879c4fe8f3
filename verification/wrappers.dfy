/** Optional values and load outcomes shared by the whole model. */
module Wrappers {

  /** A nullable column value: pandas reports a missing cell as NaN/NaT/None. */
  datatype Option<+T> = None | Some(value: T) {

    /** The wrapped value, or `default` when the cell is missing. */
    function GetOr(default: T): T {
      match this
      case Some(v) => v
      case None => default
    }
  }

  /** The outcome of an operation that may raise: a value, or the exception's message. */
  datatype Result<+T> = Ok(value: T) | Err(error: string)
}
