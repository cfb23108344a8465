/** Optional values, for inputs the widget may or may not receive. */
module Wrappers {

  datatype Option<+T> = None | Some(value: T)

}
