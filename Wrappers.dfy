/** Failure-carrying values shared by the model: Python's `None`, exceptions and
    the outcome of a call that either returns or raises. */
module Wrappers {

  datatype Option<+T> = None | Some(value: T)

  /** A raised Python exception: its class name and `str(e)`. */
  datatype PyException = PyException(kind: string, message: string)

  /** A Python call that returned a value or raised. */
  datatype Result<+T> = Success(value: T) | Failure(error: PyException)

  /** A Python call made for its effect: it finished or it raised. */
  datatype Outcome = Pass | Raise(error: PyException)

  /** `f'{x}'` of an attribute that may be `None`: Python renders `None` as "None". */
  function Display(o: Option<string>): string
  {
    match o
    case Some(s) => s
    case None => "None"
  }
}
