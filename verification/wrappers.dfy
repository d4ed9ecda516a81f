/** Failure-carrying values that stand in for Java's null references and thrown exceptions. */
module Wrappers {

  /** A Java reference that may be null: None is null. */
  datatype Option<+T> = None | Some(value: T)

  /** A call that either returns a value or throws the given exception. */
  datatype Result<+R, +E> = Success(value: R) | Failure(error: E)

  /** A check that either passes or throws the given exception (a `void` method that may throw). */
  datatype Outcome<+E> = Pass | Fail(error: E)
}
