/** Option and Result values for the places where the recorder produces
    nothing (JavaScript `null` / `undefined`) or throws. */
module Wrappers {

  datatype Option<+T> = None | Some(value: T)

  datatype Result<+R, +E> = Ok(value: R) | Err(error: E)
}
