/** Option and Result values shared by every module of the model. */
module Outcomes {

  datatype Option<+T> = None | Some(value: T)

  /** A computation that either produces a value or fails with a message,
      the way the services answer with an HTTP error or raise. */
  datatype Result<+T> = Success(value: T) | Failure(error: string)
}
