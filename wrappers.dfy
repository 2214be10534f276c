/** Failure-carrying results shared by the other modules. */
module Wrappers {

  /** A value that may be absent: a Go call that returns `(T, error)` where only success matters. */
  datatype Option<T> = None | Some(value: T)

  /** A Go `(T, error)` pair: either a value or the error's message. */
  datatype Result<T> = Ok(value: T) | Err(message: string)
}
