/** Result and Option types used for the scripts' exceptions and optional values. */
module Wrappers {

  datatype Option<+T> = None | Some(value: T)

  /** Either a value or the error the Python code would raise instead. */
  datatype Result<+T, +E> = Ok(value: T) | Err(error: E)

  /** The outcome of a step that produces no value. */
  datatype Outcome<+E> = Pass | Fail(error: E)
}
