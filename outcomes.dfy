/** Option and Result: an optional field of a resource, and the outcome of a
    call that may throw. */
module Outcomes {

  datatype Option<+T> = None | Some(value: T) {
    /** The value, or `default` when absent (a destructuring default). */
    function GetOr(default: T): T {
      if Some? then value else default
    }
  }

  datatype Result<+T, +E> = Ok(value: T) | Err(error: E)
}
