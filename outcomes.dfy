/** Optional values, and the error path of `smoothing`: the only exception it raises. */
module Outcomes {

  /** The message of the `std::runtime_error` thrown for an irregular face in pure-quad mode. */
  const ExtractionError: string := "Internal error in extraction"

  datatype Option<+T> = None | Some(value: T)

  datatype Result<+T> = Ok(value: T) | Err(msg: string)

  /** A call that either completes or aborts with a message. */
  datatype Outcome = Completed | Failed(msg: string)
}
