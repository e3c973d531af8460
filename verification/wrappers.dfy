/** Optional values, used where the modelled code may find nothing or fail. */
module Wrappers {

  datatype Option<+T> = None | Some(value: T)
}
