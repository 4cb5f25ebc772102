/** The absent-or-present value used wherever the source uses `null`/`undefined`. */
module Wrappers {

  datatype Option<+T> = None | Some(value: T)
}
