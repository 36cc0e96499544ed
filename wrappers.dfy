/** Optional values: a nullable foreign key, an absent query parameter, a missing row. */
module Wrappers {

  datatype Option<+T> = None | Some(value: T)
}
