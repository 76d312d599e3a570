/** Failure-carrying values shared by the other modules. */
module Wrappers {

  /** An optional value; `None` stands for Go's nil. */
  datatype Option<+T> = None | Some(value: T)

  /** A lookup that either yields a value or fails with an error message. */
  datatype Result<+T, +E> = Success(value: T) | Failure(error: E)
}
