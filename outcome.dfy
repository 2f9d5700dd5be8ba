/** Results of operations that can throw, and optional values. */
module Outcome {

  datatype Option<+T> = None | Some(value: T)

  /** A value, or the message of the exception the source throws instead. */
  datatype Result<+T> = Ok(value: T) | Err(message: string)
}
