/** Option and Result, shared by every module of the model: Python's
    `None`-or-value becomes `Option`, and an operation that may raise becomes a
    `Result` whose failure side carries what was raised. */
module Wrappers {

  datatype Option<+T> = None | Some(value: T) {

    /** The wrapped value, or `default` when there is none (Python's `x or default`
        for a value that is either absent or truthy). */
    function GetOr(default: T): T {
      match this
      case Some(v) => v
      case None => default
    }
  }

  datatype Result<+R, +E> = Success(value: R) | Failure(error: E)
}
