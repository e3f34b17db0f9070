/** The optional-value datatype used for Go's `error` results and for conversions that can fail. */
module Wrappers {

  datatype Option<+T> = None | Some(value: T)
}
