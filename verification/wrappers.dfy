/** The optional value used throughout the model for JavaScript properties that may be
    `undefined` (or `null`): `None` is the missing value, `Some(v)` a present one. */
module Wrappers {

  datatype Option<+T> = None | Some(value: T) {

    /** The present value, or `default` in its place when the value is missing. */
    function GetOr(default: T): T {
      if Some? then value else default
    }
  }
}
