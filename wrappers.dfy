/** Optional values: an absent argument, an empty timer slot. */
module Wrappers {

  datatype Option<+T> = None | Some(value: T)

}
