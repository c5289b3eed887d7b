/** Optional values, used for the "maybe a message" and "maybe a position" results. */
module Wrappers {

  datatype Option<+T> = None | Some(value: T)
}
