/** The two result shapes the source expresses with `undefined` and with thrown errors. */
module Wrappers {
  datatype Option<+T> = None | Some(value: T) {
    /** The `??` operator: the value, or a default when there is none. */
    function GetOr(default: T): T {
      match this
      case Some(v) => v
      case None => default
    }
  }

  datatype Result<+T, +E> = Ok(value: T) | Err(error: E)
}
