/** Optional values and success/failure outcomes, used where the TypeScript code
    has `undefined`/`null` fields or throws. */
module Wrappers {

  datatype Option<+T> = None | Some(value: T) {
    /** The value, or `default` when absent (the `??` operator). */
    function GetOr(default: T): T {
      match this
      case Some(v) => v
      case None => default
    }
  }

  /** `Failure` stands for an exception thrown by the modelled code. */
  datatype Result<+T, +E> = Success(value: T) | Failure(error: E)
}
