/** Failure-compatible wrappers used across the model: a nullable value, a value-or-error,
    and a pass-or-error outcome (the C# code expresses the last two with exceptions). */
module Wrappers {

  /** A C# reference that may be null. */
  datatype Option<+T> = None | Some(value: T)

  /** The result of an operation that either returns a value or throws. */
  datatype Result<+R, +E> = Success(value: R) | Failure(error: E)

  /** The result of a check that either passes or throws. */
  datatype Outcome<+E> = Pass | Fail(error: E)
}
