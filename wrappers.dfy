/** Failure-carrying values shared by the other modules: `Option` stands for
    Python's `None`-or-value returns, `Result` for a value-or-exception. */
module Wrappers {

  datatype Option<+T> = None | Some(value: T)

  datatype Result<+T, +E> = Ok(value: T) | Err(error: E)
}
