/** Swift's `Optional<Wrapped>`: a value that is either present or absent.
    The marker protocol `_OptionalProtocol.__marker_value` used by the library
    is this same value, so it needs no model of its own. */
module Optionals {

  datatype Option<+T> = None | Some(value: T) {

    /** Swift's nil-coalescing `self ?? fallback`. */
    function GetOr(fallback: T): T
    {
      match this
      case Some(v) => v
      case None => fallback
    }

    /** Swift's `Optional.map`. */
    function Map<U>(f: T -> U): Option<U>
    {
      match this
      case Some(v) => Some(f(v))
      case None => None
    }
  }
}
