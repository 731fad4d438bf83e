/** Optional values: the model's stand-in for a TypeScript `T | null`. */
module Wrappers {

  datatype Option<T> = None | Some(value: T)
}
