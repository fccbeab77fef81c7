/** Optional values, used where the modelled code keeps a possibly-null pointer. */
module Wrappers {
  datatype Option<T> = None | Some(value: T)
}
