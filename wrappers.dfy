/** Failure-carrying values used across the model: Python's `None`/absent
    values become `Option`, raised exceptions become the `Failure` arm of
    `Result`. */
module Wrappers {

  datatype Option<+T> = None | Some(value: T) {
    function GetOr(default: T): T {
      match this
      case Some(v) => v
      case None => default
    }
  }

  datatype Result<+R, +E> = Success(value: R) | Failure(error: E)
}
