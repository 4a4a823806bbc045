/** The optional value that stands for the source's `T | null` fields. */
module Wrappers {

  datatype Option<+T> = None | Some(value: T)
}
