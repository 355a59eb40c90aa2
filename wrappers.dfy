/** Small failure-carrying datatypes shared by the model. */
module Wrappers {

  /** A value that may be absent: Python's `None` versus a present value. */
  datatype Option<+T> = None | Some(value: T)

  /**
   * How a Python call ended: it returned a value, or it raised an exception
   * that none of the agent's `except` clauses catches, so the exception
   * leaves the agent's `run` and ends the agent's thread.
   */
  datatype Completion<+T> = Returned(value: T) | Raised
}
