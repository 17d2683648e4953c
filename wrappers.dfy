/** Optional values: an image that may not be loaded yet, a file input that may be empty. */
module Wrappers {

  datatype Option<+T> = None | Some(value: T)
}
