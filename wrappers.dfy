/** Option and Result, the two shapes the Rust code returns: `Option<T>` for
    note slots and key lookups, `Result<T, E>` for fallible operations. */
module Wrappers {

  datatype Option<+T> = None | Some(value: T)

  datatype Result<+T, +E> = Success(value: T) | Failure(error: E)
}
