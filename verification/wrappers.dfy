/** The optional value returned by the average readers and by `CheckedDiv`. */
module Wrappers {

  datatype Option<+T> = None | Some(value: T)
}
