/** Python's exceptions, as values: a relationship either returns a number or raises. */
module Outcomes {

  /** The built-in exception classes the modelled code can raise. */
  datatype ErrorKind = ValueError | TypeError | AttributeError | UnboundLocalError | IndexError

  /** A raised exception: its class and the message it was built with ("" for a bare `raise`). */
  datatype Error = Error(kind: ErrorKind, message: string)

  datatype Result<+T> = Ok(value: T) | Err(error: Error)

  /** Two calls behave alike: the same value, or an exception of the same class. */
  predicate SameOutcome<T(==)>(a: Result<T>, b: Result<T>) {
    match a
    case Ok(x) => b == Ok(x)
    case Err(e) => b.Err? && b.error.kind == e.kind
  }
}
