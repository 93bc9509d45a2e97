/** Failure-carrying wrappers shared by the other modules. */
module Basics {

  /** A value that may be absent: JavaScript's `null`/`undefined`, a failed lookup or an invalid date. */
  datatype Option<+T> = None | Some(value: T)

  /** The outcome of a computation that may throw. */
  datatype Result<+T, +E> = Success(value: T) | Failure(error: E)
}
