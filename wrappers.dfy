/** Go's nil reference, as a value: None is nil, Some(v) refers to v. */
module Wrappers {
  datatype Option<+T> = None | Some(value: T)
}
