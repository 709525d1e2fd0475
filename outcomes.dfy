/** Result and Option values standing for the exceptions the script raises. */
module Outcomes {

  /** A computed value, or the error that stopped the computation. */
  datatype Result<+T, +E> = Ok(value: T) | Err(error: E)

  /** A value that may be absent. */
  datatype Option<+T> = None | Some(value: T)
}
