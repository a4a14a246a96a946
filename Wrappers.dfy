/** Optional values and results, used for absent upstream fields and for failures. */
module Wrappers {

  datatype Option<+T> = None | Some(value: T) {
    /** The value, or the given default when absent. */
    function GetOr(default: T): T {
      match this
      case Some(v) => v
      case None => default
    }
  }

  datatype Result<+T, +E> = Ok(value: T) | Err(error: E)

  function Min(a: int, b: int): int {
    if a < b then a else b
  }
}
