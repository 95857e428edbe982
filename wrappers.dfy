/** Optional values, for a lookup that may miss and a parse that may fail. */
module Wrappers {

  datatype Option<+T> = None | Some(value: T)
}
