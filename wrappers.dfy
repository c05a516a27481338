/** Option, Result and Outcome: the return shapes of the poker hand service,
    which uses null references and throws exceptions for these. */
module Wrappers {

  /** A value that may be absent (a Java reference that may be null). */
  datatype Option<+T> = None | Some(value: T)

  /** A computed value, or the error the hand service throws instead. */
  datatype Result<+R, +E> = Success(value: R) | Failure(error: E)

  /** An operation that only changes state: it passes, or fails with an error. */
  datatype Outcome<+E> = Pass | Fail(error: E)
}
