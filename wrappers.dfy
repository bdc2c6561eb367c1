/** Small value wrappers shared by the scanner model. */
module Wrappers {

  datatype Option<+T> = None | Some(value: T)

  /** The two runtime exceptions the scanner can raise. */
  datatype Exception =
    | IndexOutOfRange      // indexing a string at its length (an Advance past the end)
    | ArgumentOutOfRange   // String.Substring called with a negative start or a bad length

  /** The value an operation returns, or the exception it throws. */
  datatype Result<+T> = Ok(value: T) | Err(error: Exception)
}
