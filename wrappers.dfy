/** Optional values: `None` stands for a JavaScript field that is `undefined` or left out. */
module Wrappers {

  datatype Option<+T> = None | Some(value: T)
}
