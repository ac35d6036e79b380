/** Optional values: a field or property that may be undefined. */
module Wrappers {

  datatype Option<+T> = None | Some(value: T)
}
