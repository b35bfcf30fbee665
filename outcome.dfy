/** Option and Result, and the kinds of Python exception the query assembler can raise. */
module Outcome {

  datatype Option<+T> = None | Some(value: T)

  /** The exceptions that escape the modelled code, with the message or key they carry. */
  datatype Error =
    | KeyError(key: string)            // str.format: a named field has no keyword argument
    | IndexError                       // str.format: a positional field ({} or {0}) with keywords only
    | ValueError(message: string)      // str.format: a lone brace, or a sign on a string
    | Unsupported(field: string)       // str.format syntax outside the modelled subset
    | TypeError(message: string)       // a non-string where a string is required
    | UnboundLocalError(name: string)  // a local read before any assignment

  datatype Result<+T> = Ok(value: T) | Err(error: Error) {
    predicate IsFailure() { Err? }

    function PropagateFailure<U>(): Result<U>
      requires Err?
    {
      Err(error)
    }

    function Extract(): T
      requires Ok?
    {
      value
    }
  }
}
