/** Optional values and settled promises, shared by every module of the model. */
module Wrappers {

  /** A value that may be absent: `null`/`undefined` in the source. */
  datatype Option<+T> = None | Some(value: T)

  /** How a promise settles: resolved with a value, or rejected with an `Error` whose
      `message` is the text the caller reads. */
  datatype Result<+T> = Ok(value: T) | Err(message: string)
}
