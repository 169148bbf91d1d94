/** The outcome of a fallible operation, in the shape of Rust's `Result`. */
module Results {

  datatype Result<+T, +E> = Ok(value: T) | Err(error: E)
}
