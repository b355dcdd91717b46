/** Option and Result, the two shapes the decoder returns. Errors are plain
    strings, as the Rust code returns `&'static str` messages. */
module Wrappers {

  datatype Option<+T> = None | Some(value: T)

  datatype Result<+T> = Ok(value: T) | Err(error: string)
}
