/** Option and Result values for the source's nullable fields and thrown errors. */
module Outcomes {

  /** A value that may be absent (a `null` field, an `undefined` lookup). */
  datatype Option<+T> = None | Some(value: T)

  /** The outcome of a call that either returns a value or throws an `Error(message)`. */
  datatype Result<+T> = Ok(value: T) | Err(message: string)
}
