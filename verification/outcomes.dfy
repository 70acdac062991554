/** Optional values and fallible results, the shapes Rust's `Option` and
    `Result` take throughout the modelled code. */
module Outcomes {

  datatype Option<+T> = None | Some(value: T)

  datatype Result<+T, +E> = Ok(value: T) | Err(error: E)
}
