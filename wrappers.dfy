/** Optional values (JavaScript's `undefined`/`null`) and results of operations that can fail. */
module Wrappers {

  datatype Option<T> = None | Some(value: T) {
    /** The value, or `d` when absent: the `x ?? d` of the source. */
    function GetOr(d: T): T {
      if Some? then value else d
    }
  }

  datatype Result<T, E> = Ok(value: T) | Err(error: E)
}
