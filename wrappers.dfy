/** Python's `None`-or-value results, as an Option datatype. */
module Wrappers {
  datatype Option<+T> = None | Some(value: T)
}
