/** Stock optional values, used wherever the source has a nil-able pointer. */
module Wrappers {

  datatype Option<+T> = None | Some(value: T)
}
