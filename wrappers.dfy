/** Failure-carrying values used wherever the engine catches an exception.
    An `Err` carries the text `str(e)` of the exception that was caught. */
module Wrappers {

  datatype Option<+T> = None | Some(value: T)

  datatype Result<+T> = Ok(value: T) | Err(message: string)

  /** Outcome of a step that returns nothing but may raise. */
  datatype Outcome = Pass | Fail(message: string)
}
