/** Option and Result types shared by the other modules. */
module Results {

  /** A value that may be absent. */
  datatype Option<+T> = None | Some(value: T)

  /** Either a successful value or the fault that stopped the computation. */
  datatype Result<+R, +E> = Success(value: R) | Failure(error: E)
}
