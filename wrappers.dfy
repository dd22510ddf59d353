/** Failure-carrying return values. The C programs exit on a fatal error and the
    Rust front end panics; the model returns the error instead. */
module Wrappers {

  datatype Option<+T> = None | Some(value: T)

  datatype Result<+T, +E> = Ok(value: T) | Err(error: E)
}
