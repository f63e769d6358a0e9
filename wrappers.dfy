/** Nullable references and error-or-value results of the reactive pipelines. */
module Wrappers {

  /** A Java reference that may be null. */
  datatype Option<+T> = None | Some(value: T) {
    function GetOr(default: T): T {
      match this
      case Some(v) => v
      case None => default
    }
  }

  /** A `Mono` that either emits a value or signals an error. */
  datatype Result<+R, +E> = Success(value: R) | Failure(error: E)
}
