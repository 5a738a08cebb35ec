/** Failure-carrying return values, standing for the places where the Python
    code returns nothing or raises. */
module Wrappers {

  datatype Option<+T> = None | Some(value: T)

  datatype Result<+T, +E> = Ok(value: T) | Err(error: E)
}
