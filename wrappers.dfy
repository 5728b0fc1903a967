/** Failure-carrying values used wherever the source raises an exception. */
module Wrappers {

  datatype Option<+T> = None | Some(value: T)

  /** `Err` stands for a Python exception escaping the modelled code. */
  datatype Result<+T> = Ok(value: T) | Err(reason: string)
}
