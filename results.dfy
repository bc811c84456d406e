/** Failure-carrying results shared by the model's modules. */
module Results {

  datatype Option<+T> = None | Some(value: T)

  /** The runtime_error thrown by the geometry code. */
  datatype DomainError = ZeroLengthVector

  datatype Result<+R, +E> = Success(value: R) | Failure(error: E)
}
