/** Values that stand for Python's None/optional results and for raised exceptions. */
module Runtime {

  datatype Option<+T> = None | Some(value: T) {
    function GetOr(default: T): T {
      match this
      case Some(v) => v
      case None => default
    }
  }

  /** The kind of a Python exception that the modelled code can raise. */
  datatype Error =
    | KeyError         // missing dict key
    | IndexError       // list or string index out of range
    | TypeError        // operation applied to a value of the wrong type
    | ValueError       // float() of a string that is not a number
    | AttributeError   // e.g. .keys() or .get() on something that is not a dict
    | RuntimeError     // price lookup without a session

  /** A Python computation: it either returns a value or raises. */
  datatype Result<+T> = Ok(value: T) | Raise(error: Error) {
    predicate IsFailure() { Raise? }

    function PropagateFailure<U>(): Result<U>
      requires Raise?
    {
      Raise(error)
    }

    function Extract(): T
      requires Ok?
    {
      value
    }
  }
}
