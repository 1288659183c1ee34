/** Values shared by both stores: JavaScript's `null`, what a `catch` clause
    receives, and the settled result of an awaited call into the wallet or
    chain client, which the model takes as an input. */
module Outcomes {

  /** A nullable field (`T | null`). */
  datatype Option<+T> = None | Some(value: T)

  /** What a `catch` clause receives: an `Error` instance, which carries a
      message, or any other thrown value. */
  datatype Thrown = ErrorObject(message: string) | NonError

  /** The settled result of an awaited external call. */
  datatype Outcome<+T> = Returned(value: T) | Threw(thrown: Thrown)

  /** The message a `catch` clause publishes:
      `error instanceof Error ? error.message : fallback`. */
  function ErrorMessage(t: Thrown, fallback: string): string
  {
    match t
    case ErrorObject(m) => m
    case NonError => fallback
  }
}
