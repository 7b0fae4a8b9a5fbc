/** A nullable value: a `shared_ptr` or raw pointer that may be null. */
module Wrappers {
  datatype Option<T> = Nothing | Some(value: T)
}
