/** Option and Result values shared by every module of the model. `Err`
    carries the `message` of the JavaScript `Error` the source throws or
    returns. */
module Wrappers {

  datatype Option<+T> = None | Some(value: T)

  datatype Result<+T> = Ok(value: T) | Err(error: string)
}
