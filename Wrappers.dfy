/** The outcome of a conversion that can fail. */
module Wrappers {

  /** Ok carries the converted value; Err carries the error that was raised instead. */
  datatype Result<+T, +E> = Ok(value: T) | Err(error: E)
}
