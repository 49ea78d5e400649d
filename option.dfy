/** A value that may be absent: a blank form field, or React state that has not been set yet. */
module Opt {

  datatype Option<T> = None | Some(value: T)
}
