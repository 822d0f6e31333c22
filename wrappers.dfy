/** Option and Result, the failure-carrying values used across the model. */
module Wrappers {

  datatype Option<+T> = None | Some(value: T)

  /** An operation that either produced a value or failed with an error (a thrown Error in the source). */
  datatype Result<+R, +E> = Ok(value: R) | Err(error: E)
}
