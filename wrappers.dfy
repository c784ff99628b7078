/** Small value types shared by the pages. */
module Wrappers {
  datatype Option<+T> = None | Some(value: T)
}
