/** Outcome types for declarations and constructions that may raise. */
module Results {

  /** Absent, or present with a value. */
  datatype Option<+T> = None | Some(value: T)

  /** What an operation produced, or the exception it raised instead. */
  datatype Result<+T, +E> = Success(value: T) | Failure(error: E)
}
