/** Option and Result: stand-ins for JavaScript's nullable values and thrown errors. */
module Wrappers {

  /** A nullable value: `null` (or `undefined`) is None. */
  datatype Option<+T> = None | Some(value: T)

  /** The outcome of an operation that may throw: Failure carries the error thrown. */
  datatype Result<+T, +E> = Success(value: T) | Failure(error: E)

  /** The outcome of an async operation whose promise resolves to nothing. */
  datatype Outcome<+E> = Pass | Fail(error: E)
}
