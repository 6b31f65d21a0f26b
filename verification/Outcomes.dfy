/** The result of an operation that may refuse. */
module Outcomes {
  datatype Outcome<+T> = Ok(value: T) | Fail
}
