/** Optional values (JavaScript `undefined` versus a present value) and results of operations that can throw. */
module Wrappers {

  datatype Option<+T> = None | Some(value: T) {
    function GetOr(default: T): T {
      match this
      case Some(v) => v
      case None => default
    }
  }

  /** `Failure` stands for an exception thrown by the source, carrying its message. */
  datatype Result<+T, +E> = Success(value: T) | Failure(error: E)
}
