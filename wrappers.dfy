/** Optional values and error-carrying results, used wherever the source returns None or raises. */
module Wrappers {
  datatype Option<T> = None | Some(value: T)

  /** `Err` carries the message of the exception the source raises. */
  datatype Result<T> = Ok(value: T) | Err(message: string)
}
