/** Go's `error` values and nilable results: None is `nil`. */
module Wrappers {

  datatype Option<+T> = None | Some(value: T)
}
