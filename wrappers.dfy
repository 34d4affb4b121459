/** Optional values, for the state the editor keeps as `null` when absent. */
module Wrappers {

  datatype Option<+T> = None | Some(value: T)
}
