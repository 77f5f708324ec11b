/** Optional values: Swift's `T?` (a value or nil). */
module Wrappers {
  datatype Option<+T> = None | Some(value: T)
}
