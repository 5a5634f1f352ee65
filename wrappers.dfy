/** Failure-compatible wrappers shared by the modules of this project. */
module Wrappers {

  /** An optional value: `None` where Python has no value to give. */
  datatype Option<+T> = None | Some(value: T)

  /** Either a result or the exception that replaced it. */
  datatype Result<+R, +E> = Success(value: R) | Failure(error: E)
}
