/** Optional values: `None` stands for Python's `None` result or for a
    computation that the source cannot complete (a NaN turned into an int). */
module Wrappers {
  datatype Option<+T> = None | Some(value: T)
}
