/** Optional values: a TypeScript optional field or a value that may be `undefined`. */
module Wrappers {

  datatype Option<+T> = None | Some(value: T)
}
