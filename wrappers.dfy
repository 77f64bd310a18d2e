/** Option and Result, the two wrapper types that the Rust code uses for
    "maybe absent" and "succeeded or failed". */
module Wrappers {

  datatype Option<+T> = None | Some(value: T)

  datatype Result<+R, +E> = Ok(value: R) | Err(error: E)
}
