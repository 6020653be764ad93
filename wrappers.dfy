/** The two wrappers the interpreter threads through every operation: an
    optional value (Rust's `Option`) and a value-or-error (Rust's `Result`). */
module Wrappers {

  datatype Option<+T> = None | Some(value: T)

  datatype Result<+T, +E> = Ok(value: T) | Err(error: E)
}
