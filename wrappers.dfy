/** Option and Result, the two failure-carrying shapes the judge uses:
    an absent value (`undefined`, a missing map key, an unreadable file) and
    a value-or-thrown-error. */
module Wrappers {

  datatype Option<+T> = None | Some(value: T) {
    function GetOr(default: T): T {
      match this
      case Some(v) => v
      case None => default
    }
  }

  datatype Result<+T, +E> = Ok(value: T) | Err(error: E)
}
