/** The one optional-value type every component model shares. */
module Wrappers {
  datatype Option<+T> = None | Some(value: T)
}
