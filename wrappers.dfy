/** Failure-compatible helper datatypes shared by the other modules. */
module Wrappers {

  /** An optional value; models Python's `Optional[...]` with `None`. */
  datatype Option<+T> = None | Some(value: T)

  /** The outcome of an operation that can fail where the source exits with status 1. */
  datatype Result<+T, +E> = Ok(value: T) | Err(error: E)
}
