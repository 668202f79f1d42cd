/** Failure-carrying datatypes used wherever the modelled Python code raises. */
module Wrappers {

  /** A value that may be absent (Python's `None`, or a lookup that misses). */
  datatype Option<+T> = None | Some(value: T) {

    /** The carried value, or `default` when there is none. */
    function GetOr(default: T): T {
      match this
      case Some(v) => v
      case None => default
    }
  }

  /** Either the value an operation returns or the exception it raises. */
  datatype Result<+T, +E> = Success(value: T) | Failure(error: E)
}
