/** Small value types shared by the three parts of the model: optional values,
    results of operations that can throw, the Foundation `URLError` codes the
    app throws, and unsigned bytes. */
module Common {

  datatype Option<+T> = None | Some(value: T)

  /** A Swift `throws` function: either its value or the error it throws. */
  datatype Result<+T, +E> = Success(value: T) | Failure(error: E)

  /** The `URLError` codes the app uses for its own local failures. */
  datatype URLError = BadServerResponse | BadURL | CannotFindHost

  /** Swift's `UInt8`. */
  newtype UInt8 = x: int | 0 <= x < 256
}
