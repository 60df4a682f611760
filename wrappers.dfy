/** Option and Result, the two wrappers the rest of the model uses for
    absent values (JavaScript `null`/`undefined`) and for error outcomes. */
module Wrappers {

  datatype Option<+T> = None | Some(value: T)

  datatype Result<+T, +E> = Ok(value: T) | Err(error: E)
}
