/** Optional values, Python exceptions as values, and results that carry them. */
module Outcomes {

  datatype Option<+T> = None | Some(value: T)

  /** The reason carried by a `ValueError` raised somewhere in the core. */
  datatype Problem =
    | MissingFields(fields: seq<string>)        // ParserAgent._validate
    | InvalidPriceFormat                        // ParserAgent._parse_price, non-numeric non-string price
    | NotAFloat(text: string)                   // float() on a cleaned price string
    | MissingCategory(category: string)         // QuestionGenerationAgent._validate_output
    | CategoryNotAList(category: string)        // QuestionGenerationAgent._validate_output
    | TooFewQuestions(category: string)         // QuestionGenerationAgent._validate_output
    | UnsupportedCategory                       // ContentLogicAgent.generate
    | UnknownPromptTemplate(template: string)   // AnswerGenerationAgent._build_prompt
    | NamesRequired                             // ComparisonAgent.compare
    | UnsupportedContentType(contentType: string) // TemplateAgent.render

  /** A Python exception. `Raised` stands for one thrown by code outside the model
      (a language-model backend, a client constructor, a page builder). */
  datatype Error =
    | ValueError(problem: Problem)
    | TypeError(detail: string)
    | AttributeError(typeName: string, attribute: string)
    | KeyError(key: string)
    | Raised(message: string)

  /** Either a value or the exception raised while computing it. */
  datatype Result<+T> = Ok(value: T) | Err(error: Error) {
    predicate IsFailure() { Err? }

    function PropagateFailure<U>(): Result<U>
      requires Err?
    {
      Err(error)
    }

    function Extract(): T
      requires Ok?
    {
      value
    }
  }
}
