/** Optional values and results with an error message. */
module Wrappers {

  datatype Option<T> = None | Some(value: T)

  /** A result whose error is a human-readable message (a Rust `Result<T, String>`-like value). */
  datatype Result<T> = Ok(value: T) | Err(error: string)
}
