/** Option and Result: the shapes of Python's `None`-or-value returns and of
    calls that either produce a value or raise. */
module Wrappers {

  datatype Option<+T> = None | Some(value: T)

  datatype Result<+R, +E> = Ok(value: R) | Err(error: E)
}
