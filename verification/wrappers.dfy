/** Optional values: the model's rendering of TypeScript's `field?: T` and of `T | null`. */
module Wrappers {

  datatype Option<+T> = None | Some(value: T)
}
