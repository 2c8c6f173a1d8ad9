/** The optional-value wrapper used wherever the source has `undefined` or an optional field. */
module Wrappers {

  datatype Option<+T> = None | Some(value: T)
}
