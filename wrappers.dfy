/** Optional values and success-or-failure outcomes, shared by every module. */
module Wrappers {

  /** An optional value: JavaScript's `undefined`/`null` versus a present value. */
  datatype Option<+T> = None | Some(value: T) {
    function GetOr(default: T): T {
      match this
      case Some(v) => v
      case None => default
    }
  }

  /** The outcome of a remote call or of an operation that may throw. */
  datatype Result<+T, +E> = Success(value: T) | Failure(error: E)

  /** The outcome of a remote call that returns no data. */
  datatype Outcome<+E> = Pass | Fail(error: E)
}
