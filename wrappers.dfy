/** Option and Result, the failure-carrying values used throughout the model.
    `Err` carries the error text the source returns in its boxed error. */
module Wrappers {

  datatype Option<+T> = None | Some(value: T)

  datatype Result<+T> = Ok(value: T) | Err(error: string)
}
