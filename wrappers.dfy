/** Optional values and the outcome of a call to the REST back end. */
module Wrappers {

  /** A value that may be absent: a JavaScript `null`/`undefined` or a missing key. */
  datatype Option<+T> = None | Some(value: T) {
    function GetOr(default: T): T {
      match this
      case Some(v) => v
      case None => default
    }
  }

  /** What an awaited server call produced: its payload, or a rejected promise. */
  datatype Outcome<+T> = Ok(payload: T) | Failed
}
