/**
 * Optional values, standing for JavaScript's `null`/`undefined` and for fields
 * a payload may omit, and the reply of an external call.
 */
module Wrappers {

  datatype Option<+T> = None | Some(value: T) {

    /** The value, or `default` when absent: the `x || default` idiom of the source. */
    function GetOr(default: T): (r: T)
      ensures Some? ==> r == value
      ensures None? ==> r == default
    {
      match this
      case Some(v) => v
      case None => default
    }
  }

  /** What one external call did: threw an error with a message, or returned a value. */
  datatype Reply<T> = Threw(message: string) | Returned(data: T)
}
