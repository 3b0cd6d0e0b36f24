/** Absent values: what JavaScript writes as `undefined` or `null`. */
module Wrappers {

  datatype Option<T> = None | Some(value: T) {

    /** `x ?? fallback`: the carried value, or `fallback` when there is none. */
    function OrElse(fallback: T): T {
      if Some? then value else fallback
    }
  }
}
