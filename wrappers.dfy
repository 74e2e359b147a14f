/** Optional values: stands for JavaScript's `null`/`undefined` and for the
    outcome of an asynchronous call that either resolves with a value or throws. */
module Wrappers {

  datatype Option<+T> = None | Some(value: T)
}
