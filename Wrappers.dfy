/** The two failure-carrying values of the model: an optional value, and a
    result that is either a value or the exception the Python code raises. */
module Wrappers {

  datatype Option<+T> = None | Some(value: T)

  datatype Result<+T, +E> = Ok(value: T) | Err(error: E)
}
