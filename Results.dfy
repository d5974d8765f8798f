/** The failures the research pipeline can raise. Nothing in the pipeline catches
    an exception, so every stage returns a Result and the compositions pass the
    first failure on unchanged. */
module Results {

  datatype Error =
    | KeyError(key: string)                  // a dict lookup of a key that is absent
    | AttributeError(name: string)           // an attribute read on a value that has none
    | TypeError(what: string)                // a value of the wrong kind where the code needs text or a list
    | MissingVariables(names: set<string>)   // a prompt template invoked without some of its slots
    | GenerationError                        // the chat model endpoint failed or timed out
    | RetrievalError                         // the arXiv retriever failed
    | JsonDecodeError                        // json.loads refused the model's reply

  datatype Result<+T> = Ok(value: T) | Err(error: Error) {

    predicate IsFailure() {
      Err?
    }

    function PropagateFailure<U>(): Result<U>
      requires Err?
    {
      Err(error)
    }

    function Extract(): T
      requires Ok?
    {
      value
    }
  }
}
