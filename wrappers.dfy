/** Optional values: JavaScript's `undefined`/`null` where the player reads an absent entry. */
module Wrappers {

  datatype Option<+T> = None | Some(value: T)
}
