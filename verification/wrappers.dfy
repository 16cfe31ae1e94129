/** Small failure-carrying datatypes shared by the calculator model. */
module Wrappers {

  /** A value that may be missing, such as the outcome of parsing a text box. */
  datatype Option<+T> = None | Some(value: T)

  /** A computed value, or the message of the error that stopped the computation
      (the model's replacement for a thrown and caught exception). */
  datatype Result<+T> = Ok(value: T) | Err(msg: string)
}
