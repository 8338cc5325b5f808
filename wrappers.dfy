/** Small value types shared by the whole model. */
module Wrappers {

  /** A value that may be absent: JavaScript's `null` / `undefined`. */
  datatype Option<+T> = None | Some(value: T)

  /**
   * What a failed `await` throws: an `Error` object (with its `message`)
   * or any other value.
   */
  datatype Thrown = ErrorObject(message: string) | OtherValue

  /** The outcome of a call to the backend: it resolved, or it threw. */
  datatype CallOutcome = Resolved | Threw(thrown: Thrown)

  /**
   * The message a handler shows for a thrown value:
   * `err instanceof Error ? err.message : fallback`.
   */
  function MessageOf(thrown: Thrown, fallback: string): (m: string)
    ensures thrown.ErrorObject? ==> m == thrown.message
    ensures thrown.OtherValue? ==> m == fallback
  {
    match thrown
    case ErrorObject(message) => message
    case OtherValue => fallback
  }
}
