/** Option and Result, used for JavaScript's `null` and for Rust's `Option` and `Result`. */
module Common {

  datatype Option<+T> = None | Some(value: T)

  datatype Result<+T, +E> = Success(value: T) | Failure(error: E)
}
