/** The two failure-carrying shapes the import model returns: an optional
    value (Rust's `Option`) and a value-or-error (Rust's `Result`). */
module Wrappers {

  datatype Option<+T> = None | Some(value: T)

  datatype Result<+T, +E> = Success(value: T) | Failure(error: E)
}
