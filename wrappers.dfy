/** Failure-compatible wrappers used throughout the model: `Option` for values that may
    be absent and `Result` for operations whose failure the source reports (an `Err`
    return) or turns into a panic. */
module Wrappers {

  datatype Option<+T> = None | Some(value: T)

  datatype Result<+R, +E> = Ok(value: R) | Err(error: E)
}
