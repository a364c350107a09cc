/** Small failure-carrying datatypes shared by the whole model. */
module Wrappers {

  /** Python's "value or None": the result of `dict.get` without a default. */
  datatype Option<+T> = None | Some(value: T) {

    /** The wrapped value, or `default` when there is none (`d.get(k, default)`). */
    function GetOr(default: T): T {
      match this
      case Some(v) => v
      case None => default
    }
  }

  /** The outcome of a Python expression that may raise an uncaught exception
      (an AttributeError from `.get` on a non-dict, a TypeError from `extend`
      on a non-iterable).  Nothing in the synchronisation scripts catches these,
      so `Raises` always ends the whole run. */
  datatype Py<+T> = Raises | Returns(value: T)
}
