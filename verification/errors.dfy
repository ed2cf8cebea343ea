/** Error values as the backend sees them: an anyhow error reduced to its chain
    of context messages, and the Option/Result shapes Rust returns. */
module Errors {

  /** An anyhow error as its context chain, outermost context first. */
  type ErrorChain = seq<string>

  datatype Option<+T> = None | Some(value: T)

  /** `anyhow::Result<T>`. */
  datatype Result<+T> = Ok(value: T) | Err(error: ErrorChain)

  /** `anyhow!(message)`: a fresh error with a single message. */
  function Fail(message: string): (e: ErrorChain)
    ensures |e| == 1 && e[0] == message
  {
    [message]
  }

  /** `.context(message)`: an error gets `message` as its new outermost
      context and keeps its whole chain below it; a value passes through. */
  function Context<T>(r: Result<T>, message: string): (wrapped: Result<T>)
    ensures wrapped.Ok? <==> r.Ok?
    ensures r.Ok? ==> wrapped.value == r.value
    ensures r.Err? ==> |wrapped.error| == |r.error| + 1 && wrapped.error[0] == message && wrapped.error[1..] == r.error
  {
    match r
    case Ok(v) => Ok(v)
    case Err(e) => Err([message] + e)
  }
}
