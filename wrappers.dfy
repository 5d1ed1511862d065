/** Optional values, used wherever the source returns a null pointer or skips work. */
module Wrappers {
  datatype Option<T> = None | Some(value: T)
  {
    predicate IsSome() { Some? }
  }
}
