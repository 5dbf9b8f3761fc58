/** Failure-carrying results shared by every module of the model. */
module Wrappers {

  /** A value that may be absent (a Go nil, a missing map key). */
  datatype Option<+T> = None | Some(value: T)

  /** A Go `(value, error)` pair: either a value or an error message. */
  datatype Result<+T> = Ok(value: T) | Err(error: string)
}
