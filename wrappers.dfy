/** Option, used wherever the Go code returns a value that may be nil. */
module Wrappers {

  /** `None` stands for Go's nil; `Some(v)` for a present value. */
  datatype Option<+T> = None | Some(value: T)
}
