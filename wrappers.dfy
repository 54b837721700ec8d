/** Optional values, shared by the download queue and the retrieval model. */
module Wrappers {

  datatype Option<T> = None | Some(value: T)
}
