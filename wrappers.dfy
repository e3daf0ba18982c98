/** The optional value used wherever the scheduler's JavaScript uses `null` or a missing match. */
module Wrappers {

  datatype Option<+T> = None | Some(value: T)
}
