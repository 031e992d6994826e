/** The two standard Rust sum types the core uses: `Option<T>` for a value
    that may be absent and `Result<T, E>` for an operation that may fail. */
module Wrappers {

  datatype Option<+T> = None | Some(value: T)

  datatype Result<+T, +E> = Ok(value: T) | Err(error: E)
}
