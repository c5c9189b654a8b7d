/** Option and Result values standing for Python's `None` returns and raised exceptions. */
module Outcomes {

  datatype Option<+T> = None | Some(value: T)

  /** `Err(e)` stands for the exception `e` being raised out of a call. */
  datatype Result<+T, +E> = Ok(value: T) | Err(error: E)
}
