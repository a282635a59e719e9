/** Optional values: a DOM lookup or attribute read that may come back empty (`null`). */
module Wrappers {

  datatype Option<+T> = None | Some(value: T)
}
