/** Python's `None`-or-value, used for optional request fields and for the
    module-level model slot. */
module Wrappers {
  datatype Option<+T> = None | Some(value: T)
}
