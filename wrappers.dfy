/** Optional values, standing for the nullable references of the extractor. */
module Wrappers {
  datatype Option<T> = None | Some(value: T)
}
