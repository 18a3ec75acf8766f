/** How the Python operations of the model end: with a value, or by raising. */
module Outcomes {

  /** The exception classes a caller of the core can tell apart (messages are not modelled). */
  datatype Error = ValueError | TypeError | KeyError | AttributeError

  /** Python's `None` as a value. */
  datatype Option<+T> = None | Some(value: T)

  /** A call either returns a value or raises an exception of a given class. */
  datatype Outcome<+T> = Returns(value: T) | Raises(error: Error)
}
