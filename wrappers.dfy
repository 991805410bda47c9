/** Optional values: `null`/`undefined`/`NaN` in the player become `None`. */
module Wrappers {

  datatype Option<+T> = None | Some(value: T)
}
