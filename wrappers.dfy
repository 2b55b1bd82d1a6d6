/** The optional value used for the source's `T | undefined` / `T | null` fields. */
module Wrappers {

  datatype Option<+T> = None | Some(value: T) {

    /** `x ?? d` */
    function GetOr(default: T): T {
      match this
      case Some(v) => v
      case None => default
    }
  }
}
