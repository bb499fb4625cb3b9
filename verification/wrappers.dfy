// Option and Result, for values that may be missing and operations that may fail.
module Wrappers {

  datatype Option<T> = None | Some(value: T)

  /** `Err` stands for a rejected promise where the source hands one back instead of a value. */
  datatype Result<T, E> = Ok(value: T) | Err(error: E)
}
