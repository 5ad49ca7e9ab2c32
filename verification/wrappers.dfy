/** Optional values: TypeScript's `undefined` / `null` and optional properties. */
module Wrappers {

  datatype Option<+T> = None | Some(value: T)
}
