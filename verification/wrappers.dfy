/** Optional values, standing in for Swift optionals (`Date?`, `Timer?`, `rightView`). */
module Wrappers {

  datatype Option<+T> = None | Some(value: T)
}
