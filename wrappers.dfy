/** Optional values: a JavaScript `undefined`/`null`, or an absent header or fix. */
module Wrappers {
  datatype Option<+T> = None | Some(value: T)
}
