/** Failure-carrying result types shared by the other modules. */
module Wrappers {

  /** A value that may be absent: Python's `None` as opposed to a value. */
  datatype Option<+T> = None | Some(value: T)

  /** A computation that either produced a value or raised an error. */
  datatype Result<+T, +E> = Ok(value: T) | Err(error: E)
}
