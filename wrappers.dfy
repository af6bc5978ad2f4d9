/** Optional values, used for the nullable ship reference held by a tile. */
module Wrappers {

  datatype Option<+T> = None | Some(value: T)
}
