/** Optional values and outcomes of calls that may fail, shared by every module. */
module Wrappers {

  /** `null`/`undefined` on one side, a present value on the other. */
  datatype Option<+T> = None | Some(value: T)

  /** The outcome of an operation that either returns a value or throws an error
      carrying a message. */
  datatype Result<+T> = Ok(value: T) | Err(message: string)
}
