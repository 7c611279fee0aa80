/** Optional values, used for the source's optional fields and for "no match". */
module Wrappers {

  datatype Option<+T> = None | Some(value: T)
}
