/** A value that may be missing: nil, an error return, or an absent map entry. */
module Wrappers {
  datatype Option<+T> = None | Some(value: T)
}
