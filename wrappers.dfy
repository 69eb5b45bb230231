/** Failure-carrying values shared by the other modules. */
module Wrappers {

  datatype Option<+T> = None | Some(value: T)

  /** A Go `(value, error)` pair: an error is carried as its message. */
  datatype Result<+T> = Ok(value: T) | Err(error: string)
}
