/** `AgentState` (graph/state.py): the one mutable record the workflow nodes read and
    update, and the collaborators the nodes obtain from outside the model. */
module GraphState {
  import opened Outcomes
  import opened Values
  import opened Oracles
  import PyStrings

  /** What `generated_questions` holds. It is declared a list of question records and
      starts as `[]`, but `generate_questions_node` stores the category map the question
      agent returns. */
  datatype QuestionsField =
    | Listed(items: seq<Value>)
    | Categorised(questions: map<string, seq<string>>)
  {
    /** `len(generated_questions)`: a map counts its categories. */
    function Length(): nat
    {
      match this
      case Listed(items) => |items|
      case Categorised(questions) => |questions.Keys|
    }
  }

  /** An entry of `schema_validation_errors`: the retry gate's message, or the error list
      of a page that failed its schema (the list's contents are not modelled). */
  datatype ValidationIssue = QuestionShortfall(attempts: int) | SchemaMismatch
  {
    function Text(): string
    {
      match this
      case QuestionShortfall(attempts) =>
        "Failed to generate >=15 questions after " + PyStrings.IntToString(attempts) + " attempts"
      case SchemaMismatch => "validation errors"
    }
  }

  /** One line of `execution_log`. The numbers in the messages are hard-coded to 15,
      whatever `min_required_questions` is. */
  datatype LogEntry =
    | ProductsParsed
    | ParsingFailed
    | Generated(count: int, attempt: int)
    | RetriesExhausted
    | Retrying(attempt: int)
    | CountValidated
    | ContextBuilt
    | AnswersGenerated
    | FaqPageAssembled
    | ProductPageAssembled
    | ComparisonGenerated
    | SchemaFailed(keys: seq<string>)
    | SchemasValid
  {
    function Text(): string
    {
      match this
      case ProductsParsed => "Products parsed successfully"
      case ParsingFailed => "Parsing failed"
      case Generated(count, attempt) =>
        "Generated " + PyStrings.IntToString(count) + " questions (attempt " + PyStrings.IntToString(attempt) + ")"
      case RetriesExhausted => "Max question generation retries reached \U{2014} aborting retry"
      case Retrying(attempt) => "FAQ count < 15, retrying (attempt " + PyStrings.IntToString(attempt) + ")"
      case CountValidated => "FAQ count validated"
      case ContextBuilt => "FAQ context built"
      case AnswersGenerated => "FAQ answers generated"
      case FaqPageAssembled => "FAQ page assembled"
      case ProductPageAssembled => "Product page assembled"
      case ComparisonGenerated => "Comparison page generated"
      case SchemaFailed(keys) => "Schema validation failed: " + Display(Strings(keys))
      case SchemasValid => "All output schemas validated successfully"
    }
  }

  /** What the nodes take from code outside the model. The four builders are methods the
      nodes call but that `ContentLogicAgent` and `TemplateAgent` do not define: `None`
      is the `AttributeError` that lookup raises, `Some(f)` a definition that may raise.
      The clients are what `LLMClient()` and `ComparisonClient()` construct, or the
      exception their constructors raise. */
  datatype Env = Env(
    buildContext: Option<(Value, Value) -> Result<Value>>,
    buildFaqPage: Option<Value -> Result<Value>>,
    buildProductPage: Option<Value -> Result<Value>>,
    buildComparisonPage: Option<Value -> Result<Value>>,
    answerClient: Result<Llm>,
    comparisonClient: Result<Llm>)

  const DefaultMaxAttempts: int := 5
  const DefaultMinRequired: int := 15

  /** `AgentState`. Optional fields that start as `None` hold `Null`. */
  class AgentState {
    var rawProductA: map<string, Value>
    var rawProductB: map<string, Value>

    var normalizedProductA: Value
    var normalizedProductB: Value
    var parseErrors: seq<Error>

    var generatedQuestions: QuestionsField
    var questionCount: int
    var questionGenerationAttempts: int
    var maxQuestionGenerationAttempts: int
    var minRequiredQuestions: int

    var faqContextMap: map<int, Value>
    var faqAnswers: seq<Value>
    var faqAnswerErrors: seq<Error>

    var faqPage: Value
    var productPage: Value
    var comparisonPage: Value

    var schemaValidationErrors: map<string, ValidationIssue>
    var retryFlags: map<string, bool>
    var executionLog: seq<LogEntry>

    /** `AgentState(raw_product_a=..., raw_product_b=...)`: the two raw products are the
        only required fields; every other field takes its default. */
    constructor (rawA: map<string, Value>, rawB: map<string, Value>)
      ensures rawProductA == rawA && rawProductB == rawB
      ensures maxQuestionGenerationAttempts == 5 && minRequiredQuestions == 15
      ensures Fresh()
    {
      rawProductA, rawProductB := rawA, rawB;
      normalizedProductA, normalizedProductB, parseErrors := Null, Null, [];
      generatedQuestions, questionCount, questionGenerationAttempts := Listed([]), 0, 0;
      maxQuestionGenerationAttempts, minRequiredQuestions := DefaultMaxAttempts, DefaultMinRequired;
      faqContextMap, faqAnswers, faqAnswerErrors := map[], [], [];
      faqPage, productPage, comparisonPage := Null, Null, Null;
      schemaValidationErrors, retryFlags, executionLog := map[], map[], [];
    }

    /** The same, with the retry limits overridden. */
    constructor WithLimits(rawA: map<string, Value>, rawB: map<string, Value>, maxAttempts: int, minRequired: int)
      ensures rawProductA == rawA && rawProductB == rawB
      ensures maxQuestionGenerationAttempts == maxAttempts && minRequiredQuestions == minRequired
      ensures Fresh()
    {
      rawProductA, rawProductB := rawA, rawB;
      normalizedProductA, normalizedProductB, parseErrors := Null, Null, [];
      generatedQuestions, questionCount, questionGenerationAttempts := Listed([]), 0, 0;
      maxQuestionGenerationAttempts, minRequiredQuestions := maxAttempts, minRequired;
      faqContextMap, faqAnswers, faqAnswerErrors := map[], [], [];
      faqPage, productPage, comparisonPage := Null, Null, Null;
      schemaValidationErrors, retryFlags, executionLog := map[], map[], [];
    }

    /** Every field other than the inputs and the limits holds its default. */
    ghost predicate Fresh()
      reads this
    {
      && normalizedProductA == Null && normalizedProductB == Null && parseErrors == []
      && generatedQuestions == Listed([]) && questionCount == 0 && questionGenerationAttempts == 0
      && faqContextMap == map[] && faqAnswers == [] && faqAnswerErrors == []
      && faqPage == Null && productPage == Null && comparisonPage == Null
      && schemaValidationErrors == map[] && retryFlags == map[] && executionLog == []
    }
  }
}
