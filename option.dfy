/** Optional values: the model's stand-in for a TypeScript result that may be `null`. */
module Wrappers {

  datatype Option<+T> = None | Some(value: T)
}
