/** The optional value used for the pass's priority attribute and for a
    configurator's pass list. */
module Wrappers {
  datatype Option<T> = None | Some(value: T)
}
