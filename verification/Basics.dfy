/** Types shared by every component of the model. */
module Basics {

  datatype Option<+T> = None | Some(value: T)

  /** The error kinds of internal/model/errors.go, as far as callers tell them apart. */
  datatype Error = BadRequest | NotFound | Conflict | Other

  datatype Result<+T> = Ok(value: T) | Err(error: Error)
}
