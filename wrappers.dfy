/** Optional values: `None` stands for a C# `null`. */
module Wrappers {
  datatype Option<+T> = None | Some(value: T)
  {
    /** The value, or `fallback` when there is none (C#'s `??`). */
    function GetOr(fallback: T): T
    {
      match this
      case Some(v) => v
      case None => fallback
    }
  }
}
