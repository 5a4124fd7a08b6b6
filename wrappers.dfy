/** Failure-compatible return types shared by the model's modules. */
module Wrappers {

  /** A value that may be absent: JavaScript's `undefined` or a Mongo path that is not set. */
  datatype Option<+T> = None | Some(value: T)

  /** The outcome of an operation that yields a value or reports an error. */
  datatype Result<+T, +E> = Success(value: T) | Failure(error: E)

  /** The outcome of an operation that yields nothing but may report an error. */
  datatype Outcome<+E> = Pass | Fail(error: E)
}
