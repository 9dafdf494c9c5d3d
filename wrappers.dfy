/** Option and Result: the explicit forms of the source's `None` returns and raised exceptions. */
module Wrappers {

  datatype Option<+T> = None | Some(value: T) {
    function GetOr(default: T): T {
      match this
      case Some(v) => v
      case None => default
    }
  }

  /** `Err` carries the text the source's exception would carry (its `str(e)`). */
  datatype Result<+T> = Ok(value: T) | Err(error: string)
}
