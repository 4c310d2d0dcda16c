/** The optional value used for the cache slot, which the handler keeps as `null` or an object. */
module Wrappers {

  datatype Option<+T> = None | Some(value: T)
}
