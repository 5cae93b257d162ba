/** Optional values, used where the engine code returns a null pointer or a "not found" default. */
module Wrappers {
  datatype Option<T> = None | Some(value: T)
  {
    predicate IsSome() { Some? }
  }
}
