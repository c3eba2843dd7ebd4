/** The optional value used wherever the Go code returns a nil error or a nil pointer. */
module Wrappers {

  datatype Option<+T> = None | Some(value: T)
}
