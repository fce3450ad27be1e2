/** Errors as the client sees them, and a result type that carries them. */
module Errors {

  /** An error that reaches a caller.  `Fatal` is what `log.Fatal` does in
      `nextStart`: the process exits, so nothing after it ever happens.
      `Failed` is an ordinary Go `error` value, identified by its text. */
  datatype Error = Fatal(reason: string) | Failed(message: string)
  {
    /** The text `err.Error()` gives for an ordinary error. */
    function Text(): string
    {
      match this
      case Fatal(r) => r
      case Failed(m) => m
    }
  }

  datatype Option<+T> = None | Some(value: T)

  datatype Result<+T> = Ok(value: T) | Err(error: Error)

  /** A read from the decoder: what it produced and where the cursor stands afterwards. */
  datatype Step<+T> = Step(result: Result<T>, next: nat)
}
