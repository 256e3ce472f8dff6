/** Option and Result, the failure-carrying values of the model. */
module Wrappers {

  /** An optional value; `None` stands for a JSON field that is null or absent. */
  datatype Option<+T> = None | Some(value: T) {

    /** The value, or `default` when there is none. */
    function GetOr(default: T): T {
      match this
      case Some(v) => v
      case None => default
    }
  }

  /** The outcome of an operation that may raise an error. */
  datatype Result<+T, +E> = Success(value: T) | Failure(error: E)
}
