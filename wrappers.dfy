/** Go reports failure through a second, nullable `error` result; a nil error is `None`. */
module Wrappers {

  datatype Option<+T> = None | Some(value: T)
}
