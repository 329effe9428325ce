/** Optional values, used where the modelled code has `None` or a missing match. */
module Wrappers {

  datatype Option<+T> = None | Some(value: T)
}
