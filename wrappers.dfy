/** A value that may be missing: JavaScript's `null` (or `NaN` from parseInt). */
module Wrappers {
  datatype Option<+T> = None | Some(value: T)
}
