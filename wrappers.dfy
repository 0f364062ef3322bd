/** Option and Result values shared by the model's modules. */
module Wrappers {

  /** A value that may be absent, as Python's None. */
  datatype Option<T> = None | Some(value: T)

  /** A computation that either produced a value or raised an error with a message. */
  datatype Result<T> = Ok(value: T) | Err(error: string)
}
