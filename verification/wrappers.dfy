/** A Python value that is either present or `None`. */
module Wrappers {

  datatype Option<+T> = None | Some(value: T) {

    /** `x if x is not None else fallback` */
    function OrElse(fallback: T): T {
      if Some? then value else fallback
    }
  }
}
