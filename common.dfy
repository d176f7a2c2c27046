/** Values shared by the asset-store and the crosswalk models. */
module Common {

  /** One octet of a stored payload. */
  type byte = x: int | 0 <= x < 256

  /** A value that may be absent; `None` stands for Java's `null`. */
  datatype Option<+T> = None | Some(value: T)

  /** The outcome of an operation that can throw: a value or the exception raised. */
  datatype Result<+T, +E> = Success(value: T) | Failure(error: E)
}
