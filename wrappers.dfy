/** Option, the result of the partial decoders of a payload: None when decoding fails. */
module Wrappers {

  datatype Option<+T> = None | Some(value: T)
}
