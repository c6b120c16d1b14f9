/** Wrappers shared by the other modules. */
module Wrappers {

  /** Python's `None` next to a present value. */
  datatype Option<+T> = None | Some(value: T)

  /** A computation that either returns a value or raises an exception. */
  datatype Result<+T, +E> = Ok(value: T) | Err(error: E)
}
