/** Rust's `Option` and `Result`, as the lifecycle layer and the command line use them. */
module Wrappers {

  datatype Option<+T> = None | Some(value: T)

  datatype Result<+T, +E> = Ok(value: T) | Err(error: E)
}
