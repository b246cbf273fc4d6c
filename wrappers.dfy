/** Wrappers for the values the bot may or may not produce. */
module Wrappers {

  /** A value that may be absent: the JavaScript `undefined`/`null` results of the tactics. */
  datatype Option<T> = None | Some(value: T)

  /** A computation that either yields a value or stops with an error (a thrown exception). */
  datatype Result<T, E> = Success(value: T) | Failure(error: E)
}
