/** Optional values: `None` stands for JavaScript's `undefined` (an absent prop or field)
    and, for parsed numbers, for `NaN`. */
module Wrappers {

  datatype Option<+T> = None | Some(value: T)
}
