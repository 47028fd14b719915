/** The optional and fallible values the other modules return. */
module Wrappers {

  datatype Option<+T> = None | Some(value: T)

  /** A fallible result; the model keeps the kind of an error, not its wording. */
  datatype Result<+T, +E> = Ok(value: T) | Err(error: E)
}
