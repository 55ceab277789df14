/** Optional values and results with an error message, used for the source's
    `undefined`/`null` values and for thrown errors. */
module Wrappers {

  datatype Option<+T> = None | Some(value: T)

  /** `Err` carries the message of an error the source throws. */
  datatype Result<+T> = Ok(value: T) | Err(error: string)
}
