/** Small value wrappers shared by the other modules. */
module Wrappers {

  /** A value that may be absent; here mostly the result of a numeric parse
      that produced NaN. */
  datatype Option<+T> = None | Some(value: T)

  /** The outcome of an operation that may be refused with a reason. */
  datatype Result<+T, +E> = Ok(value: T) | Err(error: E)
}
