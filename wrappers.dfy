/** Optional values: a JavaScript `null`/`undefined`/`NaN`, or a value that is present. */
module Wrappers {

  datatype Option<+T> = None | Some(value: T)
}
