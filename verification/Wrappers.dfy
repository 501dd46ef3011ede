/** Optional values and results shared by the other modules. */
module Wrappers {
  datatype Option<+T> = None | Some(value: T) {
    function GetOr(default: T): T {
      if Some? then value else default
    }
  }

  /** A value, or what the program raises instead. */
  datatype Result<+T, +E> = Ok(value: T) | Err(error: E)
}
