/** Optional values and results shared by every screen of the console. */
module Wrappers {

  /** A value that may be absent: JavaScript's `null`/`undefined` for one field. */
  datatype Option<T> = None | Some(value: T) {
    /** `x ?? d` */
    function GetOr(d: T): T {
      match this
      case Some(v) => v
      case None => d
    }
  }

  /** The outcome of a fail-fast check chain: the accepted payload or the first message. */
  datatype Result<T, E> = Ok(value: T) | Err(error: E)
}
