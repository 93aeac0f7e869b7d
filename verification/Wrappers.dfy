// The option type every nullable column and optional field of the source becomes, and
// SQL's COALESCE on it.
module Wrappers {

  datatype Option<+T> = None | Some(value: T) {
    /** COALESCE(this, other). */
    function Or(other: Option<T>): Option<T> {
      if Some? then this else other
    }

    function GetOr(default: T): T {
      if Some? then value else default
    }
  }
}
