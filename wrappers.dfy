/** Optional values: the `None` that the bridges' Python code returns or
    stores when there is nothing to show or nothing could be decoded. */
module Wrappers {
  datatype Option<+T> = None | Some(value: T)
}
