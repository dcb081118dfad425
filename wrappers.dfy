/** Optional values: a JavaScript `null`-able slot, or a `NaN`-able number. */
module Wrappers {

  datatype Option<+T> = None | Some(value: T)
}
