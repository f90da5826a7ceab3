/** Optional values, standing for Python's `None` and for an absent API result. */
module Wrappers {

  datatype Option<+T> = None | Some(value: T)
}
