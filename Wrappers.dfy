/** Optional values: the model's stand-in for JavaScript's `null`/`undefined`
    results and for calls that throw. */
module Wrappers {

  datatype Option<+T> = None | Some(value: T)
}
