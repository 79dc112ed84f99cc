/** Optional values and fallible results shared by every module of the model. */
module Wrappers {

  /** A value that may be absent: an omitted tool parameter, a regex with no match. */
  datatype Option<T> = None | Some(value: T)

  /** The outcome of an operation that can throw: `Err` carries the thrown message. */
  datatype Result<T> = Ok(value: T) | Err(msg: string)
}
