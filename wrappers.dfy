/** Optional values: `None` stands for JavaScript's `null`/`undefined`, and, for numbers, NaN. */
module Wrappers {

  datatype Option<+T> = None | Some(value: T)

}
