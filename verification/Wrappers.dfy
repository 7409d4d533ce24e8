/** The usual optional value: a Go pointer, channel slot or map entry that may be absent. */
module Wrappers {
  datatype Option<+T> = None | Some(value: T)
}
