/** Optional values, standing for TypeScript's optional (`?:`) fields and `T | undefined` results. */
module Wrappers {
  datatype Option<+T> = None | Some(value: T)
}
