/** Option and Result, the shapes used for Python's `None` and for raised exceptions. */
module Wrappers {

  datatype Option<+T> = None | Some(value: T)

  /** `Err(msg)` stands for a raised exception whose `str()` is `msg`. */
  datatype Result<+T> = Ok(value: T) | Err(msg: string)
}
