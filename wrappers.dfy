/** Optional values: `None` stands for JavaScript's `null`/`undefined`, or for a step that threw. */
module Wrappers {
  datatype Option<+T> = None | Some(value: T)
}
