/**
 * Option, used for JavaScript values that may be `null` or `undefined`, and
 * Outcome, the settled state of an asynchronous thunk.
 */
module Wrappers {

  datatype Option<+T> = None | Some(value: T) {

    /** `value ?? default` */
    function GetOr(default: T): T
    {
      match this
      case Some(v) => v
      case None => default
    }
  }

  /** A thunk either fulfils with a value or rejects with an error message (`undefined` when absent). */
  datatype Outcome<+T> = Fulfilled(value: T) | Rejected(message: Option<string>)
}
