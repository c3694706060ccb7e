/** Failure-carrying values shared by every module: a JavaScript value that may be
    `null`/`undefined` is an Option, a call that may throw is a Result whose error
    is the thrown Error's message. */
module Wrappers {

  datatype Option<+T> = None | Some(value: T)

  datatype Result<+T> = Ok(value: T) | Err(message: string)
}
