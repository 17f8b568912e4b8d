/** The optional value that stands for the source's NULL-or-pointer results. */
module Wrappers {
  datatype Option<+T> = None | Some(value: T)
}
