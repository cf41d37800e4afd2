/** Optional values, standing for Swift's `T?` and Python's `None`. */
module Wrappers {

  datatype Option<+T> = None | Some(value: T)
}
