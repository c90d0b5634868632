/** Optional values: a component that has not been created yet is `None`. */
module Wrappers {

  datatype Option<+T> = None | Some(value: T)
}
