/** Optional values, standing for JavaScript's `undefined` where the source reads a
    value that may be missing (an environment variable, a response field). */
module Wrappers {

  datatype Option<+T> = None | Some(value: T)
}
