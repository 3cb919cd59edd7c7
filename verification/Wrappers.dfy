/** Optional values, and results of code that may panic. */
module Wrappers {

  datatype Option<+T> = None | Some(value: T) {
    function GetOr(default: T): T {
      if Some? then value else default
    }
  }

  datatype Outcome<+T> = Returned(value: T) | Panicked
}
