/** The optional value used where the source returns NaN for "no answer". */
module Wrappers {
  datatype Option<+T> = None | Some(value: T)
}
