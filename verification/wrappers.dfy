/** Optional values: `None` stands for JavaScript's `undefined` (an unset
    environment variable) and for the `NaN` that `parseInt` yields when there
    is no number to read. */
module Wrappers {

  datatype Option<+T> = None | Some(value: T)
}
