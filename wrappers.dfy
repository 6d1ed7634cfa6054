/** Option: the model's stand-in for a nullable reference (`T?` in C#, `Optional` in Python). */
module Wrappers {

  datatype Option<+T> = None | Some(value: T) {

    /** `this ?? default`, the C# null-coalescing operator. */
    function GetOr(default: T): T {
      match this
      case Some(v) => v
      case None => default
    }
  }
}
