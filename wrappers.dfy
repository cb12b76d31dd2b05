/** Result shapes shared by every service of the challenge factory. */
module Wrappers {

  datatype Option<+T> = None | Some(value: T)

  /** What an external provider (text, image or speech model, blob store)
      hands back for one call: a value, an empty/falsy value, or a raised error. */
  datatype Outcome<+T> = Ok(value: T) | Empty | Fail(msg: string)

  /** A Python call that either returns a value or raises an exception
      whose `str(e)` is `error`. */
  datatype Result<+T> = Success(value: T) | Failure(error: string)
}
