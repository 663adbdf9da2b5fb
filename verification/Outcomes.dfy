/** Results that may be missing, failed or not there yet. */
module Outcomes {
  datatype Option<+T> = None | Some(value: T)

  datatype Result<+T, +E> = Ok(value: T) | Err(error: E)

  /** The answer of a poll that can fail. */
  datatype Poll<+T> = Pending | Ready(value: T) | Failed
}
