/** Python's `None`-or-value, used for optional trace functions and results. */
module Wrappers {
  datatype Option<+T> = None | Some(value: T)
}
