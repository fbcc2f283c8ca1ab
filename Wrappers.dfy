/** Option and Result, used for the optional outcome of a CIDR parse and for
    the error return of the locator check. */
module Wrappers {

  datatype Option<+T> = None | Some(value: T)

  datatype Result<+T, +E> = Ok(value: T) | Err(error: E)
}
