/** Small value wrappers shared by every module of the model. */
module Wrappers {

  /** A value that may be absent: JavaScript's `null` / `undefined` result. */
  datatype Option<+T> = None | Some(value: T) {
    function GetOr(default: T): T {
      match this
      case Some(v) => v
      case None => default
    }
  }

  /** The result of a call that either returns a value or throws. */
  datatype Outcome<+T> = Returned(value: T) | Threw(error: string)

  /** A read from the backing store that either succeeds or fails. */
  datatype Fetch<+T> = Failed | Fetched(value: T)
}
