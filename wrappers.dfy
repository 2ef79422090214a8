/** Result types used in place of the source's `null` and exceptions. */
module Wrappers {

  /** A possibly absent value; `None` stands for a Java `null` reference. */
  datatype Option<+T> = None | Some(value: T)

  /** The value of an operation that either returns `value` or fails with `error`. */
  datatype Result<+T, +E> = Success(value: T) | Failure(error: E)

  /** The outcome of an operation that returns nothing (a Java `void` method). */
  datatype Outcome<+E> = Pass | Fail(error: E)
}
