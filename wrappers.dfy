/** The optional value used wherever the source has an `Option`. */
module Wrappers {

  datatype Option<T> = None | Some(value: T)
}
