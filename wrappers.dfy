/** Optional values: `null` / `undefined` in the modelled programs. */
module Wrappers {

  datatype Option<+T> = None | Some(value: T)

}
