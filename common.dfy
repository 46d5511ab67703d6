/** Failure-carrying wrappers shared by every module of the model. */
module Common {

  datatype Option<T> = None | Some(value: T)

  /** The two exception messages the task service and its controller throw. */
  datatype ServiceError = Forbidden | NotFound

  /** A call either returns a value or throws one of the errors above. */
  datatype Result<T> = Ok(value: T) | Err(error: ServiceError)
}
