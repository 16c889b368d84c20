/** The result of an operation that may find nothing. */
module Outcomes {
  datatype Option<+T> = None | Some(value: T)
}
