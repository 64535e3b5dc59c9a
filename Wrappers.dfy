/** Option and Result, used for the optional query parameters of the routes and for
    the outcome of every operation. */
module Wrappers {

  datatype Option<+T> = None | Some(value: T) {

    /** The value, or the route's default when the parameter is absent. */
    function GetOr(default: T): T {
      match this
      case Some(v) => v
      case None => default
    }
  }

  datatype Result<+T, +E> = Success(value: T) | Failure(error: E)
}
