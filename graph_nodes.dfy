/** The workflow nodes (the files under graph/nodes). Each node reads the state, may update some of
    its fields in place and either returns normally (`None`) or raises (`Some(e)`); the
    frame of each method is exactly the fields the node assigns. */
module GraphNodes {
  import opened Outcomes
  import opened Values
  import opened Oracles
  import opened GraphState
  import ParserAgent
  import QuestionGeneration
  import QuestionGenerationProperties
  import AnswerGeneration
  import Comparison
  import FaqSchema
  import ProductSchema
  import ComparisonSchema

  /** The error `q["category"]` raises when `q` is a string, as iterating a dict yields. */
  const StringIndexError: Error := TypeError("string indices must be integers, not 'str'")

  // ---------------------------------------------------------------------------------
  // parse_products_node
  // ---------------------------------------------------------------------------------

  /** `parser.parse(raw)` as the node stores it: the normalized record as a dict. */
  function Normalized(raw: map<string, Value>): (r: Result<Value>)
    ensures r.Ok? <==> ParserAgent.Parse(raw).Ok?
    ensures r.Err? ==> r.error == ParserAgent.Parse(raw).error
    ensures r.Ok? ==> r.value == ParserAgent.Parse(raw).value.ToValue()
  {
    var product :- ParserAgent.Parse(raw);
    Ok(product.ToValue())
  }

  /** The fields `parse_products_node` may change. */
  datatype Parsed = Parsed(productA: Value, productB: Value, errors: seq<Error>, log: seq<LogEntry>)

  /** The effect of `parse_products_node`: product a is stored as soon as it parses, so a
      failure on product b keeps it; a failure is recorded and logged instead of raised. */
  function ParseProductsEffect(rawA: map<string, Value>, rawB: map<string, Value>, before: Parsed): (after: Parsed)
  {
    match Normalized(rawA)
    case Err(e) => before.(errors := before.errors + [e], log := before.log + [ParsingFailed])
    case Ok(a) =>
      match Normalized(rawB)
      case Err(e) => before.(productA := a, errors := before.errors + [e], log := before.log + [ParsingFailed])
      case Ok(b) => before.(productA := a, productB := b, log := before.log + [ProductsParsed])
  }

  /** `parse_products_node`: both parses inside one `try`, so the node never raises. */
  method ParseProducts(st: AgentState)
    modifies st`normalizedProductA, st`normalizedProductB, st`parseErrors, st`executionLog
    ensures Parsed(st.normalizedProductA, st.normalizedProductB, st.parseErrors, st.executionLog)
      == ParseProductsEffect(old(st.rawProductA), old(st.rawProductB),
           old(Parsed(st.normalizedProductA, st.normalizedProductB, st.parseErrors, st.executionLog)))
  {
    var rawA, rawB := st.rawProductA, st.rawProductB;
    var a := Normalized(rawA);
    if a.Err? {
      st.parseErrors := st.parseErrors + [a.error];
      st.executionLog := st.executionLog + [ParsingFailed];
      return;
    }
    st.normalizedProductA := a.value;
    var b := Normalized(rawB);
    if b.Err? {
      st.parseErrors := st.parseErrors + [b.error];
      st.executionLog := st.executionLog + [ParsingFailed];
      return;
    }
    st.normalizedProductB := b.value;
    st.executionLog := st.executionLog + [ProductsParsed];
  }

  // ---------------------------------------------------------------------------------
  // generate_questions_node
  // ---------------------------------------------------------------------------------

  /** `generate_questions_node`: the agent has no model client, so it returns the
      rule-based baseline; an agent error escapes before any field is assigned. */
  method GenerateQuestions(st: AgentState) returns (raised: Option<Error>)
    modifies st`generatedQuestions, st`questionCount, st`questionGenerationAttempts, st`executionLog
    ensures var q := QuestionGeneration.Generate(st.normalizedProductA, QuestionGeneration.NoClient);
      && (q.Err? ==> (
            && raised == Some(q.error)
            && st.generatedQuestions == old(st.generatedQuestions)
            && st.questionCount == old(st.questionCount)
            && st.questionGenerationAttempts == old(st.questionGenerationAttempts)
            && st.executionLog == old(st.executionLog)))
      && (q.Ok? ==> (
            && raised.None?
            && st.generatedQuestions == Categorised(q.value)
            && st.questionCount == st.generatedQuestions.Length() == 6
            && st.questionGenerationAttempts == old(st.questionGenerationAttempts) + 1
            && st.executionLog == old(st.executionLog) + [Generated(6, st.questionGenerationAttempts)]))
  {
    var q := QuestionGeneration.Generate(st.normalizedProductA, QuestionGeneration.NoClient);
    if q.Err? {
      return Some(q.error);
    }
    QuestionGenerationProperties.GenerateHasSixCategories(st.normalizedProductA, QuestionGeneration.NoClient);
    st.generatedQuestions := Categorised(q.value);
    st.questionCount := |q.value.Keys|;
    st.questionGenerationAttempts := st.questionGenerationAttempts + 1;
    st.executionLog := st.executionLog + [Generated(st.questionCount, st.questionGenerationAttempts)];
    raised := None;
  }

  // ---------------------------------------------------------------------------------
  // validate_question_count_node and route_after_question_validation
  // ---------------------------------------------------------------------------------

  /** `validate_question_count_node`: sets the retry flag, and when the attempts are used
      up records the shortfall instead. */
  method ValidateQuestionCount(st: AgentState)
    modifies st`retryFlags, st`schemaValidationErrors, st`executionLog
    ensures "questions" in st.retryFlags
    ensures st.retryFlags["questions"] ==> st.questionGenerationAttempts < st.maxQuestionGenerationAttempts
    ensures st.retryFlags == old(st.retryFlags)["questions" := st.retryFlags["questions"]]
    ensures st.questionCount >= st.minRequiredQuestions ==>
      && !st.retryFlags["questions"]
      && st.schemaValidationErrors == old(st.schemaValidationErrors)
      && st.executionLog == old(st.executionLog) + [CountValidated]
    ensures (st.questionCount < st.minRequiredQuestions
      && st.questionGenerationAttempts >= st.maxQuestionGenerationAttempts) ==>
      && !st.retryFlags["questions"]
      && st.schemaValidationErrors ==
           old(st.schemaValidationErrors)["questions" := QuestionShortfall(st.questionGenerationAttempts)]
      && st.executionLog == old(st.executionLog) + [RetriesExhausted]
    ensures (st.questionCount < st.minRequiredQuestions
      && st.questionGenerationAttempts < st.maxQuestionGenerationAttempts) ==>
      && st.retryFlags["questions"]
      && st.schemaValidationErrors == old(st.schemaValidationErrors)
      && st.executionLog == old(st.executionLog) + [Retrying(st.questionGenerationAttempts)]
  {
    if st.questionCount < st.minRequiredQuestions {
      if st.questionGenerationAttempts >= st.maxQuestionGenerationAttempts {
        st.retryFlags := st.retryFlags["questions" := false];
        st.schemaValidationErrors :=
          st.schemaValidationErrors["questions" := QuestionShortfall(st.questionGenerationAttempts)];
        st.executionLog := st.executionLog + [RetriesExhausted];
      } else {
        st.retryFlags := st.retryFlags["questions" := true];
        st.executionLog := st.executionLog + [Retrying(st.questionGenerationAttempts)];
      }
    } else {
      st.retryFlags := st.retryFlags["questions" := false];
      st.executionLog := st.executionLog + [CountValidated];
    }
  }

  /** `route_after_question_validation`: `retry_flags.get("questions")` decides; an
      absent flag means "continue". */
  function RouteAfterQuestionValidation(flags: map<string, bool>): (route: string)
    ensures route == "retry" || route == "continue"
    ensures route == "retry" <==> "questions" in flags && flags["questions"]
  {
    if "questions" in flags && flags["questions"] then "retry" else "continue"
  }

  // ---------------------------------------------------------------------------------
  // Iterating generated_questions
  // ---------------------------------------------------------------------------------

  /** The keys of a map in some order: Python iterates a dict in insertion order, which
      a map does not record. */
  method Enumerate(keys: set<string>) returns (s: seq<string>)
    ensures |s| == |keys|
    ensures forall k :: 0 <= k < |s| ==> s[k] in keys
    ensures forall j, k :: 0 <= j < k < |s| ==> s[j] != s[k]
  {
    s := [];
    var rest := keys;
    while rest != {}
      invariant rest <= keys
      invariant |s| + |rest| == |keys|
      invariant forall k :: 0 <= k < |s| ==> s[k] in keys && s[k] !in rest
      invariant forall j, k :: 0 <= j < k < |s| ==> s[j] != s[k]
      decreases |rest|
    {
      var x :| x in rest;
      s := s + [x];
      rest := rest - {x};
    }
  }

  /** `for q in state.generated_questions`: the records of a list, or the category names
      of a map. */
  method Items(field: QuestionsField) returns (items: seq<Value>)
    ensures field.Listed? ==> items == field.items
    ensures field.Categorised? ==> |items| == |field.questions.Keys|
    ensures field.Categorised? ==> forall k :: 0 <= k < |items| ==> items[k].Str? && items[k].s in field.questions
  {
    match field
    case Listed(records) =>
      items := records;
    case Categorised(questions) =>
      var names := Enumerate(questions.Keys);
      items := seq(|names|, k requires 0 <= k < |names| => Str(names[k]));
  }

  // ---------------------------------------------------------------------------------
  // build_faq_context_node
  // ---------------------------------------------------------------------------------

  /** `agent.build_context(product_data=..., category=q["category"])`: the method is
      looked up before the arguments are evaluated. */
  function ContextEntry(env: Env, product: Value, item: Value): Result<Value>
  {
    match env.buildContext
    case None => Err(AttributeError("ContentLogicAgent", "build_context"))
    case Some(build) =>
      var category :- Subscript(item, "category");
      build(product, category)
  }

  /** The index-to-context map the loop builds, or the first error it raises. */
  function ContextMap(env: Env, product: Value, items: seq<Value>): (r: Result<map<int, Value>>)
    decreases |items|
  {
    if |items| == 0 then Ok(map[])
    else
      var earlier :- ContextMap(env, product, items[..|items| - 1]);
      var entry :- ContextEntry(env, product, items[|items| - 1]);
      Ok(earlier[|items| - 1 := entry])
  }

  /** What a string item (a category name) does to the context loop. */
  function StringItemContextError(env: Env): Error
  {
    if env.buildContext.None? then AttributeError("ContentLogicAgent", "build_context") else StringIndexError
  }

  /** `build_faq_context_node`: the new map is assigned only after the loop, so an error
      leaves the old map in place. */
  method BuildFaqContext(st: AgentState, env: Env) returns (raised: Option<Error>)
    modifies st`faqContextMap, st`executionLog
    ensures raised.Some? ==> st.faqContextMap == old(st.faqContextMap) && st.executionLog == old(st.executionLog)
    ensures raised.None? ==> st.executionLog == old(st.executionLog) + [ContextBuilt]
    ensures st.generatedQuestions.Listed? ==>
      var built := ContextMap(env, st.normalizedProductA, st.generatedQuestions.items);
      && (raised.None? <==> built.Ok?)
      && (built.Ok? ==> st.faqContextMap == built.value)
      && (built.Err? ==> raised == Some(built.error))
    ensures st.generatedQuestions.Categorised? && st.generatedQuestions.questions != map[] ==>
      raised == Some(StringItemContextError(env))
    ensures st.generatedQuestions.Categorised? && st.generatedQuestions.questions == map[] ==>
      raised.None? && st.faqContextMap == map[]
  {
    var items := Items(st.generatedQuestions);
    var contexts: map<int, Value> := map[];
    for i := 0 to |items|
      invariant ContextMap(env, st.normalizedProductA, items[..i]) == Ok(contexts)
      invariant st.generatedQuestions.Categorised? && |items| > 0 ==> i == 0
    {
      assert items[..i + 1][..i] == items[..i];
      var entry := ContextEntry(env, st.normalizedProductA, items[i]);
      if entry.Err? {
        ContextMapFailsOnPrefix(env, st.normalizedProductA, items, i + 1);
        return Some(entry.error);
      }
      contexts := contexts[i := entry.value];
    }
    assert items[..|items|] == items;
    st.faqContextMap := contexts;
    st.executionLog := st.executionLog + [ContextBuilt];
    raised := None;
  }

  /** An error raised on a prefix is the error of the whole loop. */
  lemma {:induction false} ContextMapFailsOnPrefix(env: Env, product: Value, items: seq<Value>, n: nat)
    requires n <= |items|
    requires ContextMap(env, product, items[..n]).Err?
    ensures ContextMap(env, product, items) == ContextMap(env, product, items[..n])
    decreases |items|
  {
    if n < |items| {
      assert items[..|items| - 1][..n] == items[..n];
      ContextMapFailsOnPrefix(env, product, items[..|items| - 1], n);
    } else {
      assert items[..n] == items;
    }
  }

  // ---------------------------------------------------------------------------------
  // generate_faq_answers_node
  // ---------------------------------------------------------------------------------

  /** The answers, errors and model calls of the answer loop so far. */
  datatype Tally = Tally(answers: seq<Value>, errors: seq<Error>, calls: nat)

  /** One pass of the `try` body for question `item`, whose model call (if any) is the
      one numbered `n`: `q["category"]` and `q["question"]` are read before the agent is
      called, and the answer record copies the category from the question. */
  function AnswerOne(llm: Llm, n: nat, item: Value): Called<Value>
  {
    match Subscript(item, "category")
    case Err(e) => Called(Err(e), 0)
    case Ok(category) =>
      match Subscript(item, "question")
      case Err(e) => Called(Err(e), 0)
      case Ok(question) =>
        var result := AnswerGeneration.GenerateAnswer(llm, n, question, AnswerGeneration.DefaultTemplate);
        match result.result
        case Err(e) => Called(Err(e), result.calls)
        case Ok(answer) =>
          Called(Ok(Dict(map["category" := category, "question" := answer["question"], "answer" := answer["answer"]])),
                 result.calls)
  }

  /** The loop over `items`: each question adds one answer or one error. */
  function Answered(llm: Llm, items: seq<Value>): Tally
    decreases |items|
  {
    if |items| == 0 then Tally([], [], 0)
    else
      var t := Answered(llm, items[..|items| - 1]);
      var one := AnswerOne(llm, t.calls, items[|items| - 1]);
      if one.result.Ok? then Tally(t.answers + [one.result.value], t.errors, t.calls + one.calls)
      else Tally(t.answers, t.errors + [one.result.error], t.calls + one.calls)
  }

  /** The loop of `generate_faq_answers_node` over `items`, with the model's replies
      numbered from 0. */
  method AnswerAll(llm: Llm, items: seq<Value>) returns (answers: seq<Value>, errors: seq<Error>)
    ensures Answered(llm, items).answers == answers && Answered(llm, items).errors == errors
  {
    answers, errors := [], [];
    var calls: nat := 0;
    for i := 0 to |items|
      invariant Answered(llm, items[..i]) == Tally(answers, errors, calls)
    {
      assert items[..i + 1][..i] == items[..i];
      var one := AnswerOne(llm, calls, items[i]);
      calls := calls + one.calls;
      if one.result.Ok? {
        answers := answers + [one.result.value];
      } else {
        errors := errors + [one.result.error];
      }
    }
    assert items[..|items|] == items;
  }

  /** `generate_faq_answers_node`. The client is built outside the `try`, so its failure
      escapes; inside the loop every error is caught and appended to
      `faq_answer_errors`, and the answers replace `faq_answers` after the loop. */
  method GenerateFaqAnswers(st: AgentState, env: Env) returns (raised: Option<Error>)
    modifies st`faqAnswers, st`faqAnswerErrors, st`executionLog
    ensures env.answerClient.Err? ==> (
      && raised == Some(env.answerClient.error)
      && st.faqAnswers == old(st.faqAnswers) && st.faqAnswerErrors == old(st.faqAnswerErrors)
      && st.executionLog == old(st.executionLog))
    ensures env.answerClient.Ok? ==> raised.None? && st.executionLog == old(st.executionLog) + [AnswersGenerated]
    ensures env.answerClient.Ok? && st.generatedQuestions.Listed? ==> (
      var t := Answered(env.answerClient.value, st.generatedQuestions.items);
      st.faqAnswers == t.answers && st.faqAnswerErrors == old(st.faqAnswerErrors) + t.errors)
    ensures env.answerClient.Ok? && st.generatedQuestions.Categorised? ==> (
      && st.faqAnswers == []
      && st.faqAnswerErrors == old(st.faqAnswerErrors)
           + seq(|st.generatedQuestions.questions.Keys|, _ => StringIndexError))
  {
    if env.answerClient.Err? {
      return Some(env.answerClient.error);
    }
    var items := Items(st.generatedQuestions);
    var answers, errors := AnswerAll(env.answerClient.value, items);
    if st.generatedQuestions.Categorised? {
      AnsweredOfStrings(env.answerClient.value, items);
    }
    st.faqAnswerErrors := st.faqAnswerErrors + errors;
    st.faqAnswers := answers;
    st.executionLog := st.executionLog + [AnswersGenerated];
    raised := None;
  }

  /** Category names in place of question records: every one fails on `q["category"]`
      before the model is called. */
  lemma {:induction false} AnsweredOfStrings(llm: Llm, items: seq<Value>)
    requires forall k :: 0 <= k < |items| ==> items[k].Str?
    ensures Answered(llm, items) == Tally([], seq(|items|, _ => StringIndexError), 0)
    decreases |items|
  {
    if |items| > 0 {
      var front := items[..|items| - 1];
      AnsweredOfStrings(llm, front);
      assert seq(|front|, _ => StringIndexError) + [StringIndexError] == seq(|items|, _ => StringIndexError);
    }
  }

  // ---------------------------------------------------------------------------------
  // assemble_faq_page_node, assemble_product_page_node, generate_comparison_node
  // ---------------------------------------------------------------------------------

  /** `TemplateAgent().<method>(arg)` for a builder the template agent may lack. */
  function Build(builder: Option<Value -> Result<Value>>, methodName: string, arg: Value): (r: Result<Value>)
    ensures builder.None? ==> r == Err(AttributeError("TemplateAgent", methodName))
    ensures builder.Some? ==> r == builder.value(arg)
  {
    match builder
    case None => Err(AttributeError("TemplateAgent", methodName))
    case Some(build) => build(arg)
  }

  /** `assemble_faq_page_node`: the page built from the list of answers. */
  method AssembleFaqPage(st: AgentState, env: Env) returns (raised: Option<Error>)
    modifies st`faqPage, st`executionLog
    ensures var page := Build(env.buildFaqPage, "build_faq_page", List(st.faqAnswers));
      && (page.Err? ==> (raised == Some(page.error)
            && st.faqPage == old(st.faqPage) && st.executionLog == old(st.executionLog)))
      && (page.Ok? ==> (raised.None?
            && st.faqPage == page.value && st.executionLog == old(st.executionLog) + [FaqPageAssembled]))
  {
    var page := Build(env.buildFaqPage, "build_faq_page", List(st.faqAnswers));
    if page.Err? {
      return Some(page.error);
    }
    st.faqPage := page.value;
    st.executionLog := st.executionLog + [FaqPageAssembled];
    raised := None;
  }

  /** `assemble_product_page_node`: the page built from product a. */
  method AssembleProductPage(st: AgentState, env: Env) returns (raised: Option<Error>)
    modifies st`productPage, st`executionLog
    ensures var page := Build(env.buildProductPage, "build_product_page", st.normalizedProductA);
      && (page.Err? ==> (raised == Some(page.error)
            && st.productPage == old(st.productPage) && st.executionLog == old(st.executionLog)))
      && (page.Ok? ==> (raised.None?
            && st.productPage == page.value && st.executionLog == old(st.executionLog) + [ProductPageAssembled]))
  {
    var page := Build(env.buildProductPage, "build_product_page", st.normalizedProductA);
    if page.Err? {
      return Some(page.error);
    }
    st.productPage := page.value;
    st.executionLog := st.executionLog + [ProductPageAssembled];
    raised := None;
  }

  /** `generate_comparison_node`: `ComparisonAgent()` builds its client, `compare` gets
      product a first and product b second, and the page is built from its blocks, which
      are returned as `blocks`. The node succeeds exactly when the client exists, `compare`
      succeeds and the page builds. */
  method GenerateComparison(st: AgentState, env: Env) returns (raised: Option<Error>, blocks: map<string, Value>)
    modifies st`comparisonPage, st`executionLog
    ensures raised.Some? ==> st.comparisonPage == old(st.comparisonPage) && st.executionLog == old(st.executionLog)
    ensures env.comparisonClient.Err? ==> raised == Some(env.comparisonClient.error)
    ensures env.comparisonClient.Ok? ==>
      var a := st.normalizedProductA;
      var b := st.normalizedProductB;
      var llm := env.comparisonClient.value;
      && (!a.Dict? ==> raised == Some(AttributeError(TypeName(a), "get")))
      && (a.Dict? && !b.Dict? ==> raised == Some(AttributeError(TypeName(b), "get")))
      && ((a.Dict? && b.Dict? && (!Truthy(Get(a.fields, "name", Null)) || !Truthy(Get(b.fields, "name", Null))))
            ==> raised == Some(ValueError(NamesRequired)))
      && ((a.Dict? && b.Dict? && Truthy(Get(a.fields, "name", Null)) && Truthy(Get(b.fields, "name", Null))
           && Comparison.ComparePrice(a.fields, b.fields).Err?)
            ==> raised == Some(Comparison.ComparePrice(a.fields, b.fields).error))
      && (!Comparison.Compares(a, b, llm, 0) ==> raised.Some?)
      && (Comparison.Compares(a, b, llm, 0) ==> (
            && blocks.Keys == Comparison.OutputKeys
            && blocks["products"] == Dict(map["product_a" := a.fields["name"], "product_b" := b.fields["name"]])
            && blocks["price_comparison"] == Comparison.ComparePrice(a.fields, b.fields).value
            && (forall k :: 0 <= k < |Comparison.LlmFields| ==>
                  blocks[Comparison.LlmFields[k].0] == Comparison.Section(a.fields, b.fields, llm, 0, k).value)
            && blocks["summary"] == Str(llm(5).text)
            && var page := Build(env.buildComparisonPage, "build_comparison_page", Dict(blocks));
               && (page.Err? ==> raised == Some(page.error))
               && (page.Ok? ==> (raised.None? && st.comparisonPage == page.value
                                 && st.executionLog == old(st.executionLog) + [ComparisonGenerated]))))
  {
    blocks := map[];
    if env.comparisonClient.Err? {
      return Some(env.comparisonClient.error), blocks;
    }
    var compared, calls := Comparison.Compare(st.normalizedProductA, st.normalizedProductB, env.comparisonClient.value, 0);
    if compared.Err? {
      return Some(compared.error), blocks;
    }
    blocks := compared.value;
    var page := Build(env.buildComparisonPage, "build_comparison_page", Dict(blocks));
    if page.Err? {
      return Some(page.error), blocks;
    }
    st.comparisonPage := page.value;
    st.executionLog := st.executionLog + [ComparisonGenerated];
    raised := None;
  }

  // ---------------------------------------------------------------------------------
  // validate_final_output_node
  // ---------------------------------------------------------------------------------

  /** `Schema(**page)`: a page that is not a mapping raises `TypeError`, which the node
      does not catch; otherwise the result says whether the schema accepts it. */
  function Unpack(schemaName: string, page: Value): (r: Result<map<string, Value>>)
    ensures r.Ok? <==> page.Dict?
    ensures r.Ok? ==> r.value == page.fields
  {
    if page.Dict? then Ok(page.fields)
    else Err(TypeError(schemaName + "() argument after ** must be a mapping, not " + TypeName(page)))
  }

  /** The error map the node builds: one entry per page its schema rejects, checked in
      the order faq, product, comparison; a page that is not a mapping escapes. */
  function FinalErrors(faq: Value, product: Value, comparison: Value): (r: Result<map<string, ValidationIssue>>)
    ensures r.Ok? <==> faq.Dict? && product.Dict? && comparison.Dict?
    ensures !faq.Dict? ==> r == Err(Unpack("FAQPageSchema", faq).error)
    ensures faq.Dict? && !product.Dict? ==> r == Err(Unpack("ProductPageSchema", product).error)
    ensures r.Ok? ==>
      && r.value.Keys <= {"faq", "product", "comparison"}
      && ("faq" in r.value <==> !FaqSchema.PageValid(faq.fields))
      && ("product" in r.value <==> !ProductSchema.PageValid(product.fields))
      && ("comparison" in r.value <==> !ComparisonSchema.PageValid(comparison.fields))
  {
    var faqFields :- Unpack("FAQPageSchema", faq);
    var withFaq: map<string, ValidationIssue> :=
      if FaqSchema.PageValid(faqFields) then map[] else map["faq" := SchemaMismatch];
    var productFields :- Unpack("ProductPageSchema", product);
    var withProduct := if ProductSchema.PageValid(productFields) then withFaq else withFaq["product" := SchemaMismatch];
    var comparisonFields :- Unpack("ComparisonPageSchema", comparison);
    Ok(if ComparisonSchema.PageValid(comparisonFields) then withProduct
       else withProduct["comparison" := SchemaMismatch])
  }

  /** `list(errors.keys())`: the failed pages in the order they were checked. */
  function FailedKeys(errors: map<string, ValidationIssue>): (keys: seq<string>)
    ensures forall k :: 0 <= k < |keys| ==> keys[k] in errors
    ensures ("faq" in keys <==> "faq" in errors) && ("product" in keys <==> "product" in errors)
      && ("comparison" in keys <==> "comparison" in errors)
  {
    (if "faq" in errors then ["faq"] else [])
      + (if "product" in errors then ["product"] else [])
      + (if "comparison" in errors then ["comparison"] else [])
  }

  /** `validate_final_output_node`: overwrites `schema_validation_errors`, and logs
      either the failed pages or success. */
  method ValidateFinalOutput(st: AgentState) returns (raised: Option<Error>)
    modifies st`schemaValidationErrors, st`executionLog
    ensures var errors := FinalErrors(st.faqPage, st.productPage, st.comparisonPage);
      && (errors.Err? ==> (
            && raised == Some(errors.error)
            && st.schemaValidationErrors == old(st.schemaValidationErrors)
            && st.executionLog == old(st.executionLog)))
      && (errors.Ok? ==> (
            && raised.None?
            && st.schemaValidationErrors == errors.value
            && "questions" !in st.schemaValidationErrors
            && st.executionLog == old(st.executionLog)
                 + [if errors.value == map[] then SchemasValid else SchemaFailed(FailedKeys(errors.value))]))
  {
    var errors := FinalErrors(st.faqPage, st.productPage, st.comparisonPage);
    if errors.Err? {
      return Some(errors.error);
    }
    st.schemaValidationErrors := errors.value;
    if errors.value != map[] {
      st.executionLog := st.executionLog + [SchemaFailed(FailedKeys(errors.value))];
    } else {
      st.executionLog := st.executionLog + [SchemasValid];
    }
    raised := None;
  }
}
