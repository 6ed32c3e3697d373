/** Optional values: JavaScript's `undefined` (an absent header, field or
    environment variable) and reads that may fail. */
module Wrappers {

  datatype Option<+T> = None | Some(value: T)
}
