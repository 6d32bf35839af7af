/** Optional values, for the fields a subscription may lack. */
module Wrappers {

  datatype Option<+T> = None | Some(value: T)
}
