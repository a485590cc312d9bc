/** Failure values shared by every stage of the interpreter: the tokeniser,
    the parser and the evaluator all abort with one of these. */
module Errors {

  datatype Option<+T> = None | Some(value: T)

  /** The ways a gel expression can fail. */
  datatype Error =
    | UnparseableToken(rest: string)      // no converter recognises the remaining text
    | UnclosedString(stringType: string)  // "Unclosed <type> string"
    | BadNesting                          // unmatched opener, or a closer reached by the parser
    | ArgumentCount                       // "Incorrect number of arguments" from the cursor
    | TypeError                           // the host's own runtime failure (calling a non-function, reading a field of undefined)
    | OutOfFuel                           // the model's bound on evaluation depth ran out
    | Unsupported                         // host coercion or prototype behaviour that is not modelled

  datatype Result<+T> = Ok(value: T) | Err(error: Error) {
    predicate IsFailure() { Err? }

    function PropagateFailure<U>(): Result<U>
      requires Err?
    {
      Err(error)
    }

    function Extract(): T
      requires Ok?
    {
      value
    }
  }
}
