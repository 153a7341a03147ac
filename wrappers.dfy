/** Optional values and the success/failure outcomes that stand for thrown errors. */
module Wrappers {

  datatype Option<+T> = None | Some(value: T)

  /** A computation that either yields a value or fails with an error (a thrown `Error`). */
  datatype Result<+T, +E> = Success(value: T) | Failure(error: E)

  /** A computation that yields nothing and either passes or fails with an error. */
  datatype Outcome<+E> = Pass | Fail(error: E)
}
