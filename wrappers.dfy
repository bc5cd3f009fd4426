/** Optional values: Java's nullable references are modelled as Option. */
module Wrappers {

  /** None stands for Java's null. */
  datatype Option<+T> = None | Some(value: T) {

    /** The value held, or the default for None. */
    function GetOr(default: T): T
    {
      match this
      case Some(v) => v
      case None => default
    }
  }
}
