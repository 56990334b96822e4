/** Optional values, used where the router stores or passes `null`. */
module Wrappers {
  datatype Option<+T> = None | Some(value: T)
}
