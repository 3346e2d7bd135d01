/** Optional values and results, used where the JavaScript code has
    `null`/`undefined` or a thrown exception. */
module Wrappers {

  /** `None` stands for JavaScript's `null` or `undefined`. */
  datatype Option<+T> = None | Some(value: T) {
    function GetOr(default: T): T {
      match this
      case Some(v) => v
      case None => default
    }
  }

  /** `Failure` stands for a thrown exception or a rejected promise. */
  datatype Result<+T, +E> = Success(value: T) | Failure(error: E)
}
