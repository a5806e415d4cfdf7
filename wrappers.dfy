/** Option and Result: the optional values and the error paths of the application. */
module Wrappers {

  /** A value that may be absent (`null`/`undefined` in the application). */
  datatype Option<+T> = None | Some(value: T)

  /** A computation that either succeeds or fails with an error (a rejected promise or a thrown `Error`). */
  datatype Result<+T, +E> = Ok(value: T) | Err(error: E)
}
