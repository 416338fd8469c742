/** Results of calls into code outside the model: a value, or a thrown error. */
module Outcomes {

  datatype Option<+T> = None | Some(value: T)

  /** A thrown JavaScript error, reduced to its `name` and `message`. */
  datatype Error = Error(name: string, message: string)

  /** What an awaited external call did: returned a value or threw an error. */
  datatype Outcome<+T> = Ok(value: T) | Thrown(error: Error)
}
