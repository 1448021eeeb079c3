/** Optional values: the model's stand-in for the app's optional properties
    (`perkType`, `category`, `card`, `note`, ...). */
module Optional {

  datatype Option<+T> = None | Some(value: T) {

    /** The wrapped value, or `default` when there is none (Swift's `??`). */
    function GetOr(default: T): T {
      match this
      case Some(v) => v
      case None => default
    }
  }
}
