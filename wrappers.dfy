/** Option and Result, used for Python's None and for exceptions raised by the source. */
module Wrappers {

  datatype Option<+T> = None | Some(value: T) {

    /** The value, or `default` when there is none (Python's `dict.get(key, default)`). */
    function GetOr(default: T): T {
      match this
      case Some(v) => v
      case None => default
    }
  }

  /** `Err` carries the text of the exception the source would raise. */
  datatype Result<+T> = Ok(value: T) | Err(error: string)
}
