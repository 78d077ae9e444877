/** Option and Result, used where a JavaScript value may be `undefined`/`null`
    or where an operation ends by throwing. */
module Wrappers {

  datatype Option<+T> = None | Some(value: T)

  datatype Result<+T, +E> = Ok(value: T) | Err(error: E)
}
