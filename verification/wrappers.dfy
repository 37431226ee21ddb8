/** Optional values, used for partial parses and for deals that would run out of cards. */
module Wrappers {
  datatype Option<+T> = None | Some(value: T)
}
