/** Option and Result values shared by the whole model: an absent value, and
    an operation that either produced a value or failed with an error. */
module Outcome {

  datatype Option<+T> = None | Some(value: T)

  datatype Result<+T, +E> = Ok(value: T) | Err(error: E)
}
