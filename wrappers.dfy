/** Failure-carrying values: the results of point lookups and counts against the store. */
module Wrappers {

  datatype Option<T> = None | Some(value: T)

  /** A store call either yields a value or the driver's error (its message). */
  datatype Result<T> = Success(value: T) | Failure(error: string)
}
