/** The exceptions the notifier raises and catches, and the text that
    `str(error)` gives for each of them. */
module Failures {
  import opened PyJson

  /** One constructor per exception class; `msg` is the single argument the
      exception was raised with. */
  datatype Error =
    | StatusCodeError(msg: string)
    | TypeError(msg: string)
    | AnswerError(msg: string)
    | ServerAnswerError(msg: string)
    | KeyError(msg: string)
    | VariableDoesNotExist(msg: string)
      /** An exception raised by the HTTP client or the JSON decoder, with its text. */
    | ForeignError(msg: string)

  /** A value or the exception raised instead of returning it. */
  datatype Result<+T> = Ok(value: T) | Err(error: Error) {
    predicate IsFailure() {
      Err?
    }

    function PropagateFailure<U>(): Result<U>
      requires Err?
    {
      Err(error)
    }

    function Extract(): T
      requires Ok?
    {
      value
    }
  }

  /** `str(error)`. For a KeyError Python shows the repr of its argument,
      quotes included; every other class here shows its argument as it is. */
  function Message(e: Error): string {
    if e.KeyError? then Repr(JStr(e.msg)) else e.msg
  }
}
