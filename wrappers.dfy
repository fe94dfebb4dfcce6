/** Small failure-carrying datatypes shared by the two components. */
module Wrappers {

  /** A value that may be absent: an empty storage slot, a lookup that found nothing. */
  datatype Option<+T> = None | Some(value: T)

  /** The result of a call that either returns a value or fails with an error. */
  datatype Result<+T, +E> = Ok(value: T) | Err(error: E)

  /** The result of a call that returns nothing on success. */
  datatype Outcome<+E> = Pass | Fail(error: E)
}
