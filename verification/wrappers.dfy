/** Present-or-absent values and value-or-message outcomes, used for node reads
    that may throw and for a scrape that may raise. */
module Wrappers {

  /** `None` stands for a read that raised (or a key that is missing). */
  datatype Option<+T> = None | Some(value: T)

  /** A computation that either returns a value or raises an exception whose
      `str()` is `error`. */
  datatype Result<+T> = Success(value: T) | Failure(error: string)
}
