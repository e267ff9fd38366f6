/** Small failure-compatible datatypes used by the model. */
module Wrappers {

  datatype Option<+T> = None | Some(value: T)

  /** Rust's `Result<(), E>`: a setter either succeeds with no value or reports `error`. */
  datatype Status<+E> = Ok | Err(error: E)
}
