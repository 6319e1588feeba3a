/** The optional-value datatype used for the answers of the media pipeline. */
module Wrappers {

  datatype Option<+T> = None | Some(value: T)
}
