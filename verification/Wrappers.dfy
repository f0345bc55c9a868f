/** Failure and absence, shared by every module of the model. */
module Wrappers {

  datatype Option<+T> = None | Some(value: T)

  /** A refused request leaves the durable state as it was. */
  datatype Result<+T> = Success(value: T) | Refused(reason: string)
}
