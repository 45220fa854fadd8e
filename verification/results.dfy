/** Failure-carrying values: the model's stand-ins for `java.util.Optional`
    and for an operation that may throw. */
module Results {

  /** An optional value, as `Optional<T>` in the program. */
  datatype Option<+T> = None | Some(value: T)

  /** Either a value or the error an exception would have carried. */
  datatype Result<+T, +E> = Success(value: T) | Failure(error: E)
}
