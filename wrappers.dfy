/** The optional value used for "no match", "no device" and "raised" throughout the model. */
module Wrappers {
  datatype Option<+T> = None | Some(value: T)
}
