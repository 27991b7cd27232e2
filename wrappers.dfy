/** Option and Result, the two failure-carrying datatypes every other module uses.
    `None` stands for a dictionary key that is absent (or a Python `None`);
    `Failure` stands for an exception that propagates to the caller. */
module Wrappers {

  datatype Option<+T> = None | Some(value: T) {
    function GetOr(default: T): T {
      match this
      case Some(v) => v
      case None => default
    }
  }

  datatype Result<+T, +E> = Success(value: T) | Failure(error: E)
}
