/** The optional value used wherever the source reads a key that may be absent
    (`obj?.[key]`, `?? fallback`) or returns `null`. */
module Wrappers {

  datatype Option<+T> = None | Some(value: T) {

    /** The JavaScript `?? fallback` on a possibly absent value. */
    function GetOr(fallback: T): T {
      match this
      case Some(v) => v
      case None => fallback
    }
  }
}
