/** Failure-carrying datatypes shared by every module of the model. */
module Wrappers {

  datatype Option<+T> = None | Some(value: T)

  /** What a JavaScript `throw` hands to a `catch` block: an `Error` object
      (which has a `message`) or some other value. */
  datatype Thrown = ErrorObject(message: string) | NonError

  /** The settled outcome of an awaited call: a value, or a thrown exception. */
  datatype Reply<+T> = Done(value: T) | Threw(thrown: Thrown)

  /** `err instanceof Error ? err.message : fallback`, the message every
      catch block of the application shows. */
  function CaughtMessage(t: Thrown, fallback: string): (m: string)
    ensures t.ErrorObject? ==> m == t.message
    ensures t.NonError? ==> m == fallback
  {
    match t
    case ErrorObject(msg) => msg
    case NonError => fallback
  }
}
