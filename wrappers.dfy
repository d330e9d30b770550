/** Small failure-carrying datatypes used by every stage of the pipeline. */
module Wrappers {

  datatype Option<+T> = None | Some(value: T)

  /** The value a Python call returns, or the exception it raises. */
  datatype Result<+T, +E> = Success(value: T) | Failure(error: E)

  /** A procedure that returns nothing but may raise. */
  datatype Outcome<+E> = Pass | Fail(error: E)
}
