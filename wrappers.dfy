/** Option and Result, for absent values (a JavaScript `null`) and for
    validation outcomes that either carry a value or a list of issues. */
module Wrappers {

  datatype Option<+T> = None | Some(value: T)

  datatype Result<+R, +E> = Ok(value: R) | Err(error: E)
}
