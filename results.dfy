/** The outcome of a fallible operation, as Rust's `Result<T, E>`. */
module Results {

  datatype Result<+T, +E> = Ok(value: T) | Err(error: E)

  /** An optional value, as Rust's `Option<T>`. */
  datatype Option<+T> = None | Some(value: T)
}
