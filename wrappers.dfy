/** Optional values: a reading or a detection that may be missing (Python's None). */
module Wrappers {

  datatype Option<+T> = None | Some(value: T)
}
