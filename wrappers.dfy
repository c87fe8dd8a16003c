/** Small failure-carrying datatype shared by the modules of this model. */
module Wrappers {

  /** A value that may be missing; `None` also stands for a Go `(value, err)`
      pair whose error is non-nil. */
  datatype Option<+T> = None | Some(value: T)
}
