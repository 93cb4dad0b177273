/** The two ways an operation of the platform can end, and values that may be absent. */
module Outcomes {
  datatype Option<+T> = None | Some(value: T)

  /** A validation error names the offending field, as the 422 responses do. */
  datatype Result<+T> = Success(value: T) | Invalid(field: string, reason: string)
}
