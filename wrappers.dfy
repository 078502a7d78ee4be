/** Small result types shared by the model: an optional value (Python's
    `None` or a value) and the outcome of a call that may raise. */
module Wrappers {

  datatype Option<+T> = None | Some(value: T) {
    function GetOr(default: T): T {
      match this
      case Some(v) => v
      case None => default
    }
  }

  /** The Python exceptions that the modelled code lets escape to its caller. */
  datatype PyError =
    | AttributeError     // a method called on `None`
    | TypeError          // `list.extend(None)`, `str + None`
    | ValueError         // `chr` of a code point above U+10FFFF
    | UnicodeEncodeError // a lone surrogate cannot be encoded into a request URL

  /** What a Python call does: return a value or raise an uncaught exception. */
  datatype Outcome<+T> = Returned(value: T) | Raised(error: PyError)
}
