/** The outcomes of lookups and handlers: a handler either succeeds with a
    value or fails with the message of the error it throws. */
module Wrappers {

  datatype Option<+T> = None | Some(value: T)

  /** `Failure(message)` stands for `throw new Error(message)` caught by the
      handler's `catch` block, which answers with `error.message`. */
  datatype Result<+T> = Success(value: T) | Failure(message: string)
}
