/** The optional value that several modules use for what the source keeps as a nil-able pointer. */
module Wrappers {
  datatype Option<+T> = None | Some(value: T)
}
