/** Optional values and results, used by every other module in place of the
    source's nil pointers and error returns. */
module Outcomes {

  datatype Option<+T> = None | Some(value: T)

  datatype Result<+T, +E> = Success(value: T) | Failure(error: E)

  /** What may become of a transaction: it works, it fails without effect, or it commits
      while its caller sees an error. */
  datatype Fault = Works | FailsBefore | FailsAfter
}
