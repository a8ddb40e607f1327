/** Failure-carrying results: an operation of the visualization core either
    produces a value or throws; a thrown error is an `Err` with its message. */
module Wrappers {

  datatype Option<T> = None | Some(value: T)

  datatype Result<T> = Ok(value: T) | Err(msg: string)
}
