/** The optional value used wherever the source has `null` / `undefined`. */
module Wrappers {

  datatype Option<+T> = None | Some(value: T) {
    function GetOr(default: T): T {
      match this
      case Some(v) => v
      case None => default
    }
  }

  /**
    The completion of a JavaScript evaluation: it returns a value or raises an exception,
    whose message is kept.
   */
  datatype Completion<+T> = Normal(value: T) | Abrupt(message: string)
}
