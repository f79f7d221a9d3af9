/** Option and Result, the two shapes Rust's std gives to "maybe a value" and "a value or an error". */
module Wrappers {

  datatype Option<+T> = None | Some(value: T)

  datatype Result<+T, +E> = Ok(value: T) | Err(error: E)
}
