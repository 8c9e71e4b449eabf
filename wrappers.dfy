/** The optional-value datatype used where dRowAudio returns a null pointer. */
module Wrappers {
  datatype Option<+T> = None | Some(value: T)
}
