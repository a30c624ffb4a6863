/** Failure-carrying result types shared by every module of the model. */
module Wrappers {

  /** A value that may be absent: JavaScript's `null`/`undefined`, Python's `None`. */
  datatype Option<+T> = None | Some(value: T)

  /** Either a computed value or the error the source code throws or returns. */
  datatype Result<+T, +E> = Ok(value: T) | Err(error: E)
}
