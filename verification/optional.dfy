/** A value that may be absent: the model's stand-in for a C# null reference. */
module Optional {

  datatype Option<+T> = None | Some(value: T) {

    /** The encapsulated value, or `default` when there is none (C#'s `??`). */
    function GetOr(default: T): T
    {
      match this
      case Some(v) => v
      case None => default
    }
  }
}
