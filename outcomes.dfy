/** Option and Result values, and the errors the filters raise.
    The filters signal every failure with a Python exception; here each one
    becomes an `Err` carrying an `Error` that says which raise (or which
    runtime failure) ended the call. */
module Outcomes {

  datatype Option<T> = None | Some(value: T)

  /** The exceptions of the filter engine.  The first group are the messages
      the code raises on purpose; the second group are the runtime errors the
      interpreter raises when the code indexes, looks up or converts
      something that is not there. */
  datatype Error =
    // raised on purpose
    | DuplicateScoreEntry(program: string)            // second 'score' row for one program
    | UnknownProgram(name: string)                    // in silico program not in the registry
    | NonNumericScore(program: string, value: string) // `prog=value` override that is not a number
    | UnrecognisedPrediction(program: string, value: string)
    | UnknownConsequence(name: string)
    | UnknownBiotype(name: string)
    | FreqAboveMinFreq                                // freq > min_freq
    // raised by the interpreter
    | IndexError
    | KeyError(key: string)
    | ValueError(text: string)
    | AttributeError
    | NameError(name: string)

  datatype Result<T> = Ok(value: T) | Err(error: Error) {
    predicate IsFailure() { Err? }

    function PropagateFailure<U>(): Result<U>
      requires Err?
    {
      Err(error)
    }

    function Extract(): T
      requires Ok?
    {
      value
    }
  }
}
