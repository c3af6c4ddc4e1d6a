/** Optional values, standing in for Swift's `T?`. */
module Wrappers {

  /** `None` plays the role of Swift's `nil`. */
  datatype Option<+T> = None | Some(value: T) {

    /** Swift's `x ?? default`. */
    function GetOr(default: T): T {
      match this
      case Some(v) => v
      case None => default
    }
  }
}
