/** Failure-compatible wrappers shared by the queue and worker models. */
module Basics {

  /** `None` stands for Python's `None` (and, for the running slot, for `{}`). */
  datatype Option<+T> = None | Some(value: T)

  /** The value an operation returns, or the kind of exception it raises. */
  datatype Result<+T, +E> = Ok(value: T) | Err(error: E)

  /** Completion of an operation that returns nothing useful, or its exception. */
  datatype Outcome<+E> = Pass | Fail(error: E)
}
