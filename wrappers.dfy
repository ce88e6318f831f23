// Option and Result, the two failure-carrying shapes the routers use:
// `None` for Python's `None`, `Err` for an error record, an HTTP 400 or an
// exception raised by `math` or by a division.
module Wrappers {

  datatype Option<+T> = None | Some(value: T)

  datatype Result<+T, +E> = Ok(value: T) | Err(error: E)
}
