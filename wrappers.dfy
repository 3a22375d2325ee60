/** Optional values, standing for the source's nullable state (`null` is `None`). */
module Wrappers {

  datatype Option<T> = None | Some(value: T)
}
