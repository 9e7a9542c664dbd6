# A verified model of the FAQ and comparison page workflow

This project models the workflow that turns two raw product records into three pages:
an FAQ page, a product page and a comparison page. The workflow is a LangGraph state
machine. Nine nodes share one mutable `AgentState`. Between them sit the deterministic
agents that the nodes call:

- the parser, which checks required fields, trims strings, normalizes lists and parses prices;
- rule-based question generation, with an optional merge of model-proposed questions;
- the category-dispatched content blocks;
- the cleaning of model answers;
- the price comparison;
- the page templates;
- the three page schemas.

How each part is modelled:

- Python values are the `Values.Value` datatype.
- A raised exception is an `Err` of `Outcomes.Result`.
- A language model is an oracle, `Oracles.Llm = nat -> Reply`: the reply to the n-th call,
  either text or a failure. Functions that call the model count their calls, so "exactly one
  call" and "six calls" can be stated.
- The state is the class `GraphState.AgentState`. Each node is a method whose `modifies`
  clause lists exactly the fields the node assigns.
- `Graph.Run` drives the nodes along the edge table, one step per loop iteration.

What is proved:

- The run follows the edges.
- Outside the question-generation cycle, no node runs twice.
- `generate_questions` runs at most `GenerationBound` times, i.e. max(1, max - attempts),
  so the run always terminates.
- A run that raises nothing ends with `validate_final_output`.
- Each node's effect on the state.
- The agents' promises: round trips of the parser, the merge keeping first occurrences
  in order, the first-error behaviour of the loops, cheaper-option selection, and the
  templates' key mapping.

Four consequences follow from the node contracts for the model's run, `Graph.Run`, which
passes the state from node to node without re-validating it (see "## Left out" for what
LangGraph's own per-node validation would change):

- **`question_count` is always 6 after `generate_questions`.** `GenerateQuestions` stores the six-category map.
- **The retry cycle always exhausts its budget.** The count of 6 is below the default
  minimum of 15, so the gate retries until the attempts run out (`ValidateQuestionCount`).
- **A model run in which product a parses always raises at `build_faq_context`.** No agent
  defines `build_context`, so looking it up raises an `AttributeError` before the
  arguments are evaluated. Even with a builder, the node iterates the category map, which
  yields strings, so `q["category"]` raises a `TypeError`. `BuildFaqContext` states both
  for every non-empty map.
- **A model run in which product a fails to parse raises earlier.** `normalized_product_a`
  stays `None`, and `generate_questions` raises an `AttributeError` from `None.get`
  (`GenerateQuestions`).

Where the code and its accompanying description disagree, the model follows the code:

- a `bool` price counts as a number (`_parse_price(True) == 1`, and `_compare_price` treats
  booleans as numbers);
- `question_count` counts categories, not questions;
- the log texts hard-code 15 whatever `min_required_questions` is;
- `validate_final_output` overwrites `schema_validation_errors`, which drops the gate's
  `"questions"` entry;
- `build_context`, `build_faq_page`, `build_product_page` and `build_comparison_page` are
  not defined by any agent. They are optional functions in `GraphNodes.Env`: `None` raises
  `AttributeError` before the arguments are evaluated, and `Some(f)` is an arbitrary
  definition that may fail.

## Model

| member | source | states |
|---|---|---|
| ParserAgent.Missing | agents/parser_agent.py:38 | the missing fields are exactly the required fields absent from the record, in `REQUIRED_FIELDS` order |
| ParserAgent.Validate | agents/parser_agent.py:37-40 | succeeds iff every required key is present (values are not inspected); otherwise one `ValueError` lists all missing fields |
| ParserAgent.StripValue | agents/parser_agent.py:47-53 | `.strip()` on a field succeeds exactly on strings (anything else raises) |
| ParserAgent.StripEach | agents/parser_agent.py:59 | each element trimmed, same length and order |
| ParserAgent.StripItems | agents/parser_agent.py:58-59 | a list field succeeds iff every element is a string; the result is each element trimmed, same length, order and duplicates |
| ParserAgent.NormalizeList | agents/parser_agent.py:57-62 | any value that is not a list normalizes without error, and a value that is neither list nor string gives `[]` |
| ParserAgent.ParsePrice | agents/parser_agent.py:64-76 | a numeric price (bools included) is returned as its integer; a price that is neither numeric nor a string raises "Invalid price format" |
| ParserAgent.Normalize | agents/parser_agent.py:45-55 | a normalized record has every string field and every list element trimmed |
| ParserAgent.Parse | agents/parser_agent.py:27-32 | missing fields raise before any normalization; a parsed record is trimmed |
| ParserAgent.ToValue | agents/parser_agent.py:46-55 | the output dict has exactly the eight keys `name` … `price` |
| ParserAgent.StripEachTrimmed | agents/parser_agent.py:59 | trimming is idempotent on each element |
| ParserAgent.NormalizeListTrimmed | agents/parser_agent.py:57-62 | every element of a normalized list is already trimmed |
| ParserAgent.StripValueTrimmed | agents/parser_agent.py:47-53 | a normalized string field is already trimmed |
| ParserAgentProperties.CommaStringAsList | agents/parser_agent.py:60-61 | a string field normalizes exactly like the list of its comma-separated pieces (`"A, B, C"` and `["A","B","C"]` agree) |
| ParserAgentProperties.StripItemsOfStrings | agents/parser_agent.py:58-59 | a list of strings normalizes to its trimmed elements |
| ParserAgentProperties.NormalizeListStable | agents/parser_agent.py:57-62 | normalizing a normalized list changes nothing |
| ParserAgentProperties.StripEachOfTrimmed | agents/parser_agent.py:59 | trimming already-trimmed elements is the identity |
| ParserAgentProperties.NormalizeListTrimmedAt | agents/parser_agent.py:57-62 | pointwise form: each normalized element is trimmed |
| ParserAgentProperties.ParseStable | agents/parser_agent.py:27-55 | re-parsing a parsed record as raw input gives the same record (parse is idempotent) |
| ParserAgentProperties.ReparseTrimmed | agents/parser_agent.py:27-55 | every trimmed record is the parse of its own raw form (round trip) |
| ParserAgentProperties.RawShapeIsComplete | agents/parser_agent.py:37-40 | the raw form of a record passes the required-field check |
| ParserAgentProperties.RawShapeNormalizes | agents/parser_agent.py:45-55 | normalizing the raw form of a trimmed record gives it back |
| ParserAgentProperties.NormalizeOfFields | agents/parser_agent.py:45-55 | the record is assembled field by field from the eight per-field normalizations |
| ParserAgentProperties.AsRawFields | agents/parser_agent.py:13-22 | the raw form of a record has each of the eight required keys holding the record's field |
| ParserAgentProperties.KeysPresent | agents/parser_agent.py:13-22 | the eight named keys are exactly what `REQUIRED_FIELDS` demands |
| ParserAgentProperties.ParseIsNormalizeOnceValid | agents/parser_agent.py:27-32 | once validation passes, parse is normalize |
| ParserAgentProperties.TrimmedListStable | agents/parser_agent.py:58-59 | a list of trimmed strings normalizes to itself |
| ParserAgent.RequiredPresent | agents/parser_agent.py:13-22 | validation success makes each of the eight fields readable |
| ParserPriceProperties.ParsePriceOfClean | agents/parser_agent.py:67-74 | a string price without `₹`, `,` or outer whitespace parses as its truncated decimal value |
| ParserPriceProperties.NegativeNumeral | agents/parser_agent.py:74 | a leading `-` negates the parsed magnitude |
| ParserPriceProperties.UnsignedNumeral | agents/parser_agent.py:74 | an unsigned numeral parses as its magnitude |
| ParserPriceProperties.LeadingDigitsOfNumeral | agents/parser_agent.py:74 | the integer part of a numeral is its maximal run of leading digits |
| ParserPriceProperties.MagnitudeOfDigits | agents/parser_agent.py:74 | a digit string parses to its decimal value |
| ParserPriceProperties.MagnitudeOfParts | agents/parser_agent.py:74 | digits, a point and digits parse to the integer part (truncation) |
| ParserPriceProperties.MagnitudeOfDecimal | agents/parser_agent.py:74 | `w.f` parses to the value of `w`: the fraction is truncated |
| ParserPriceProperties.NegativeDecimal | agents/parser_agent.py:74 | `-w.f` parses to minus the value of `w` (truncation toward zero) |
| ParserPriceProperties.TrailingJunkRejected | agents/parser_agent.py:74 | in the model, digits followed by a character that is neither a digit nor a point raise a `ValueError` (Python's `float` also accepts exponents and underscores) |
| ParserPriceProperties.RemoveConcat | agents/parser_agent.py:70-71 | removing a character distributes over concatenation |
| ParserPriceProperties.SeparatorIgnored | agents/parser_agent.py:67-74 | inserting a `₹` or `,` anywhere in a string price does not change its parse (so `"₹1,299.50"` parses like `"1299.50"`, i.e. 1299) |
| ParserPriceProperties.RupeeRemoved | agents/parser_agent.py:70 | every `₹` is removed, wherever it appears |
| ParserPriceProperties.CommaRemoved | agents/parser_agent.py:71 | every `,` is removed, wherever it appears |
| ParserPriceProperties.NonStringPriceExamples | agents/parser_agent.py:65-76 | `True` parses to 1, `None` raises "Invalid price format" |
| ParserPriceProperties.ParsePriceOfIntText | agents/parser_agent.py:67-74 | the decimal text of any integer parses back to that integer |
| ParserPriceProperties.RemoveAbsent | agents/parser_agent.py:70-71 | removing an absent character is the identity |
| ParserAgent.TruncatedDecimal | agents/parser_agent.py:74 | `int(float(text))` for a plain decimal numeral: sign, integer part, fraction dropped; its properties are the `ParserPriceProperties` lemmas |
| ParserPriceProperties.AllDigitsLeading | agents/parser_agent.py:74 | a digit string is entirely leading digits |
| QuestionGeneration.RuleBasedQuestions | agents/question_generation_agent.py:76-104 | succeeds iff the product is a dict (`.get` on anything else is an `AttributeError`), and then is the baseline for `name`, defaulting to "this product" |
| QuestionGeneration.MergeQuestions | agents/question_generation_agent.py:159-177 | the in-place extend-then-deduplicate loops compute `Merged(base, extra)` |
| QuestionGeneration.ExtendCategories | agents/question_generation_agent.py:165-167 | the extend loop appends exactly the accepted extras of each category, in `CATEGORIES` order |
| QuestionGeneration.CategoriesPrefix | agents/question_generation_agent.py:23-30 | the categories are distinct, so each loop step handles a new one |
| QuestionGeneration.DeduplicateEach | agents/question_generation_agent.py:169-175 | every category's list is replaced by its order-preserving deduplication |
| QuestionGeneration.Deduplicate | agents/question_generation_agent.py:171-175 | the `seen`-set comprehension keeps exactly the first occurrence of each question |
| QuestionGeneration.ValidateCategories | agents/question_generation_agent.py:184-195 | validation passes iff no category in the list has a problem |
| QuestionGeneration.ValidateCategoriesFirst | agents/question_generation_agent.py:184-195 | a failure reports the problem of the first failing category in `CATEGORIES` order |
| QuestionGeneration.ValidateOutput | agents/question_generation_agent.py:179-195 | passes iff every category is present, is a list and has at least 2 entries, whatever the entries are |
| QuestionGeneration.AsDict | agents/question_generation_agent.py:79-104 | the category map as a dict: same keys, each a list of the same length |
| QuestionGeneration.Generate | agents/question_generation_agent.py:45-70 | a product that is not a dict raises `AttributeError`; a model call that raises propagates |
| QuestionGeneration.Baseline | agents/question_generation_agent.py:76-104 | the six categories with two templated questions each; stated by `BaselineFields`, `BaselineKeys` and `BaselinePairs` |
| QuestionGeneration.Merged | agents/question_generation_agent.py:159-177 | each category extended by its accepted extras, then deduplicated; stated by `MergedSpec` and `MergeIgnores` |
| QuestionGenerationProperties.BaselineFields | agents/question_generation_agent.py:79-104 | the exact twelve baseline questions, each embedding the product name |
| QuestionGenerationProperties.Embedded | agents/question_generation_agent.py:81-102 | a question template embeds the product name as a substring |
| QuestionGenerationProperties.TemplatePair | agents/question_generation_agent.py:80-103 | the two templates of a category give two distinct questions naming the product |
| QuestionGenerationProperties.BaselineKeys | agents/question_generation_agent.py:79-104 | the baseline has exactly the six categories |
| QuestionGenerationProperties.BaselinePairs | agents/question_generation_agent.py:79-104 | every baseline category holds two distinct questions naming the product |
| QuestionGenerationProperties.UniqueKeepsTwo | agents/question_generation_agent.py:169-175 | deduplication keeps at least two entries when two distinct questions are present |
| QuestionGenerationProperties.MergedSpec | agents/question_generation_agent.py:165-175 | after a merge a category's elements are exactly base ∪ accepted extras, distinct, and ordered by their first occurrence in base followed by the extras |
| QuestionGenerationProperties.MergeIgnores | agents/question_generation_agent.py:165-167 | extras under a non-category key, or not holding a list, are ignored: only deduplication applies |
| QuestionGenerationProperties.MergeExample | agents/question_generation_agent.py:169-175 | `["Q1","Q2"]` merged with `["Q2","Q3"]` gives `["Q1","Q2","Q3"]` |
| QuestionGenerationProperties.MergeNothing | agents/question_generation_agent.py:119-127 | an empty model reply leaves the baseline unchanged |
| QuestionGenerationProperties.MergeNothingOf | agents/question_generation_agent.py:159-177 | merging nothing into duplicate-free lists is the identity |
| QuestionGenerationProperties.MergedKeepsPair | agents/question_generation_agent.py:169-175 | a merge never leaves a category with fewer than two questions |
| QuestionGenerationProperties.MergedBaselineValid | agents/question_generation_agent.py:63-69 | a merged baseline always passes `_validate_output` |
| QuestionGenerationProperties.MergedValid | agents/question_generation_agent.py:179-195 | any merge into a six-category base of pairs passes validation |
| QuestionGenerationProperties.BaselineValid | agents/question_generation_agent.py:79-104 | the baseline itself passes validation |
| QuestionGenerationProperties.GenerateWithoutClient | agents/question_generation_agent.py:63-70 | without a client, `generate` returns the baseline unchanged |
| QuestionGenerationProperties.GenerateUnusableReply | agents/question_generation_agent.py:119-127 | a reply that is not a JSON object behaves as no client at all |
| QuestionGenerationProperties.GenerateWithReply | agents/question_generation_agent.py:63-70 | with a decoded reply, the result is the baseline merged with it |
| QuestionGenerationProperties.GenerateHasSixCategories | agents/question_generation_agent.py:63-70 | every successful result has exactly the six category keys |
| Lists.UniqueSpec | agents/question_generation_agent.py:171-175 | deduplication keeps every element, has no duplicates, is a subsequence of the input, and orders its elements by their first occurrence (`FirstIndex`) |
| Lists.UniqueOfDistinct | agents/question_generation_agent.py:171-175 | deduplicating a duplicate-free list is the identity |
| Lists.UniqueIdempotent | agents/question_generation_agent.py:171-175 | deduplication is idempotent |
| ContentLogic.Dispatch | agents/content_logic_agent.py:37-45 | a category is dispatched iff it is a string key of the table (case-sensitive); otherwise `ValueError` |
| ContentLogic.JoinItems | agents/content_logic_agent.py:109 | `", ".join` of a list of strings joins its elements; of a string, its characters; a list holding a non-string fails, and so does any value that is neither list nor string |
| ContentLogic.Chars | agents/content_logic_agent.py:109 | iterating a string yields its one-character strings |
| ContentLogic.Texts | agents/content_logic_agent.py:109 | the strings of a list of string values |
| ContentLogic.AnswerItem | agents/content_logic_agent.py:67-80 | an answered item copies `category` and `question` and adds the dispatched block's answer |
| ContentLogic.InOrder | agents/content_logic_agent.py:67-80 | the loop succeeds iff every step does, returns the step results in order, and otherwise raises the first failure |
| ContentLogic.Generate | agents/content_logic_agent.py:51-82 | same length and order as the input, each item answered; an unsupported category raises and no partial list is returned |
| ContentLogic.InformationalAnswer | agents/content_logic_agent.py:88-94 | the informational block; stated by `InformationalNamesProduct` |
| ContentLogic.SafetyAnswer | agents/content_logic_agent.py:99-106 | the safety block; stated by `SafetyAnswerShape` |
| ContentLogic.IngredientsAnswer | agents/content_logic_agent.py:108-110 | the ingredients block; stated by `IngredientsAnswerOfJoin` and `IngredientsAnswerNamesAll` |
| ContentLogic.PricingAnswer | agents/content_logic_agent.py:112-113 | the pricing block; stated by `PricingAnswerQuotesPrice` |
| ContentLogic.ComparisonAnswer | agents/content_logic_agent.py:115-121 | the comparison block; stated by `ComparisonAnswerQuotesFields` |
| ContentLogic.Answer | agents/content_logic_agent.py:74 | runs the dispatched block on the product; the usage block is `product["usage"]` (`UsageVerbatim`) |
| ContentLogicProperties.PricingAnswerQuotesPrice | agents/content_logic_agent.py:112-113 | the pricing block succeeds iff the product is a dict with a `price` key, and its sentence quotes the price |
| ContentLogicProperties.ComparisonAnswerQuotesFields | agents/content_logic_agent.py:115-121 | the comparison block succeeds iff the product is a dict with `concentration` and `price`, and its sentence quotes both |
| ContentLogicProperties.DispatchCoversCategories | agents/content_logic_agent.py:38-45 | the dispatch table covers exactly the six question categories |
| ContentLogicProperties.CapitalisedCategoryRejected | agents/content_logic_agent.py:71-72 | `"Usage"` is rejected: matching is case-sensitive |
| ContentLogicProperties.UnknownCategoryRejected | agents/content_logic_agent.py:69-72 | a missing or unknown category raises "Unsupported category" |
| ContentLogicProperties.AnswerIgnoresQuestion | agents/content_logic_agent.py:74 | the answer depends on the category and product only, never on the question text |
| ContentLogicProperties.AnswerCopiesItem | agents/content_logic_agent.py:76-80 | an answered item has exactly `category`, `question` and `answer`, the first two copied |
| ContentLogicProperties.UsageVerbatim | agents/content_logic_agent.py:96-97 | the usage answer is `product["usage"]` verbatim |
| ContentLogicProperties.SafetyAnswerShape | agents/content_logic_agent.py:99-106 | the fixed safety sentence is returned iff `side_effects` is missing or empty; otherwise the answer embeds them lower-cased |
| ContentLogicProperties.TextsOfStrings | agents/content_logic_agent.py:109 | a list built from strings gives back those strings |
| ContentLogicProperties.IngredientsAnswerOfJoin | agents/content_logic_agent.py:108-110 | the ingredients answer wraps the `", "`-joined ingredients in the fixed sentence |
| ContentLogicProperties.IngredientsAnswerOfList | agents/content_logic_agent.py:108-110 | for a list of ingredient names, the answer is the sentence around their join |
| ContentLogicProperties.JoinedPartsNamed | agents/content_logic_agent.py:109-110 | each joined part appears in the sentence |
| ContentLogicProperties.IngredientsAnswerNamesAll | agents/content_logic_agent.py:108-110 | the ingredients answer names every ingredient |
| ContentLogicProperties.InformationalNamesProduct | agents/content_logic_agent.py:88-94 | the informational answer names the product |
| AnswerGeneration.CheckTemplate | agents/answer_generation_agent.py:69-70 | only `"faq_answer_v1"` is accepted; any other template raises "Unknown prompt template" |
| AnswerGeneration.GenerateAnswer | agents/answer_generation_agent.py:24-58 | template guard, one model call, question returned with the cleaned answer; stated by `UnknownTemplateNoCall` and `KnownTemplateOneCall` |
| AnswerGeneration.Postprocess | agents/answer_generation_agent.py:95-105 | strip whitespace, then `"`, then `'`; stated by `PostprocessShape` and `PostprocessOfClean` |
| AnswerGenerationProperties.UnknownTemplateNoCall | agents/answer_generation_agent.py:50-53 | an unknown template raises before any model call |
| AnswerGenerationProperties.KnownTemplateOneCall | agents/answer_generation_agent.py:50-58 | exactly one model call; success iff it returns text; the question is returned unchanged with the cleaned answer |
| AnswerGenerationProperties.PostprocessShape | agents/answer_generation_agent.py:95-105 | the cleaned answer is a contiguous substring of the raw one and never starts or ends with `'`; empty gives `""` |
| AnswerGenerationProperties.PostprocessOfClean | agents/answer_generation_agent.py:103 | an answer already without outer whitespace or quotes is unchanged |
| PyStrings.StripCharsIsSlice | agents/answer_generation_agent.py:103 | stripping a character set removes a prefix and a suffix of those characters and nothing else |
| PyStrings.StripCharsIdempotent | agents/answer_generation_agent.py:103 | stripping twice is stripping once |
| PyStrings.JoinSplit | agents/parser_agent.py:61 | splitting on a separator and joining with it is the identity |
| Comparison.PriceAmount | agents/comparison_agent.py:74-83 | the amount is `price["amount"]` when the price is a dict, otherwise the price itself |
| Comparison.Cheaper | agents/comparison_agent.py:92-94 | `None` unless both amounts are numeric; otherwise one of the two names |
| Comparison.ComparePrice | agents/comparison_agent.py:85-100 | succeeds iff both names exist and can be dict keys |
| Comparison.FieldValues | agents/comparison_agent.py:119-121 | a missing or `None` field becomes `[]`; any other value is kept |
| Comparison.Compares | agents/comparison_agent.py:37-68 | the condition under which `compare` succeeds |
| Comparison.CompareField | agents/comparison_agent.py:106-138 | one section: both products' field values (`None` as `[]`) and the model's verdict; stated by `SectionShape` |
| Comparison.Compare | agents/comparison_agent.py:37-68 | non-dict products raise `AttributeError`, a missing or empty name raises `ValueError`, both with no model call; success uses exactly six calls, and the output holds products a and b, the price comparison, the five sections and the summary |
| Comparison.AskModel | agents/comparison_agent.py:55-66 | the section loop and the summary: succeeds iff every call returns text; keeps the existing keys and adds the five sections and `summary` |
| Comparison.AskSections | agents/comparison_agent.py:55-61 | the loop over `LLM_FIELDS` adds one section per field, each from its own model call |
| Comparison.SummaryIsNoSection | agents/comparison_agent.py:22-28 | `summary` is not one of the section names |
| Comparison.SectionNamesDistinct | agents/comparison_agent.py:22-28 | the five section names are distinct |
| Comparison.SectionsAll | agents/comparison_agent.py:46-66 | the output keys are `products`, `price_comparison`, the five sections and `summary` |
| ComparisonProperties.CheaperIsLowest | agents/comparison_agent.py:92-94 | the name returned belongs to the lower price, and b wins ties |
| ComparisonProperties.TieGoesToSecond | agents/comparison_agent.py:92-94 | equal prices name product b |
| ComparisonProperties.CheaperSwap | agents/comparison_agent.py:92-94 | with distinct prices, swapping the products names the same product |
| ComparisonProperties.BoolPriceIsNumber | agents/comparison_agent.py:88-94 | `True` counts as the number 1, a numeric string does not count |
| ComparisonProperties.PriceComparisonOfInts | agents/comparison_agent.py:96-100 | the price comparison maps each name to its price plus `cheaper_option` |
| ComparisonProperties.DictPriceAmount | agents/comparison_agent.py:78-81 | a price dict gives its `amount` |
| ComparisonProperties.SectionShape | agents/comparison_agent.py:106-138 | a section succeeds iff its call returns text, and maps each name to its field values (never `None`) plus the verdict |
| Template.RenderProductPage | agents/template_agent.py:38-48 | succeeds iff the blocks hold all seven sections; a missing one raises `KeyError` |
| Template.RenderFaqPage | agents/template_agent.py:53-58 | succeeds iff the blocks hold `faq_count` and `faqs` |
| Template.RenderComparisonPage | agents/template_agent.py:63-71 | succeeds iff the blocks hold the five copied keys |
| Template.Render | agents/template_agent.py:20-33 | any type other than `product_page`, `faq` and `comparison` raises `ValueError` |
| FaqSchema.ItemValid | schemas/faq_schema.py:5-8 | an FAQ item: `category`, `question` and `answer`, all strings |
| FaqSchema.PageValid | schemas/faq_schema.py:11-14 | page type `"faq"`, an integer count and a list of valid items, unrelated to each other |
| ProductSchema.PageValid | schemas/product_schema.py:5-7 | page type `"product"` and a mapping `content` |
| ComparisonSchema.PageValid | schemas/comparison_schema.py:5-7 | page type `"comparison"` and a mapping `comparison` |
| TemplateProperties.FaqPageCopies | agents/template_agent.py:53-58 | the FAQ page copies `faq_count` (not recomputed) and `faqs` under three keys |
| TemplateProperties.FaqPageSchema | schemas/faq_schema.py:11-14 | a rendered FAQ page passes its schema iff the count is an integer and the questions are a list of valid items |
| TemplateProperties.ProductPageFailsSchema | schemas/product_schema.py:6 | the rendered product page, labelled `product_page`, always fails the schema, which expects `product` |
| TemplateProperties.ProductPageCopies | agents/template_agent.py:38-48 | the product page copies its seven sections verbatim |
| TemplateProperties.ComparisonPageFailsSchema | schemas/comparison_schema.py:7 | the rendered comparison page has no `comparison` key, so it always fails its schema |
| TemplateProperties.ComparisonPageCopies | agents/template_agent.py:63-71 | the comparison page copies five blocks and has no skin-type, usage or side-effects section |
| TemplateProperties.UnknownContentType | agents/template_agent.py:33 | `"product"` and `"FAQ"` are unsupported types |
| FaqSchema.Examples | schemas/faq_schema.py:5-14 | an item without `answer` fails, an empty page passes, a count that disagrees with the list passes, a wrong page type fails |
| GraphState.AgentState.constructor | graph/state.py:5-48 | only the raw products are required; limits default to 5 and 15; every other field takes its default (empty, zero or `None`) |
| GraphState.AgentState.WithLimits | graph/state.py:25-26 | the same with both limits overridden |
| GraphNodes.Normalized | agents/parser_agent.py:27-32 | the node stores the parse as its dict, or sees the parse error |
| GraphNodes.ParseProductsEffect | graph/nodes/parse_products.py:8-14 | the fields after the `try`/`except`; stated by `ParseProductsOutcome` |
| GraphNodes.ParseProducts | graph/nodes/parse_products.py:5-16 | only the two products, the errors and the log change, as `ParseProductsEffect` says |
| GraphNodeProperties.ParseProductsOutcome | graph/nodes/parse_products.py:8-14 | one log line, success iff both parse; a failure adds exactly the first error and is not raised; product a is kept when product b fails; product b is set only when both parse |
| GraphNodes.GenerateQuestions | graph/nodes/generate_questions.py:5-19 | with no client the baseline replaces the questions, the count becomes 6, attempts grow by 1 and one log line records both; an error leaves every field unchanged |
| GraphNodes.ValidateQuestionCount | graph/nodes/validate_question_count.py:4-25 | the three branches' flag, error entry and single log line; only `retry_flags["questions"]` changes among the flags; a true flag implies attempts < max |
| GraphNodes.RouteAfterQuestionValidation | graph/nodes/validate_question_count.py:28-36 | `"retry"` iff the flag is present and true, else `"continue"` |
| GraphNodes.Enumerate | graph/nodes/build_faq_context.py:10 | iterating a dict yields each key exactly once |
| GraphNodes.Items | graph/nodes/generate_faq_answers.py:12 | iterating the stored questions yields the list items, or the category names of a map |
| GraphNodes.BuildFaqContext | graph/nodes/build_faq_context.py:5-19 | the map is replaced by the context loop's result and one line is logged; a failure leaves map and log unchanged; a non-empty category map always raises |
| GraphNodes.ContextMapFailsOnPrefix | graph/nodes/build_faq_context.py:10-14 | once a question fails, later questions do not change the outcome |
| GraphNodes.ContextMap | graph/nodes/build_faq_context.py:8-14 | the index-to-context loop; stated by `ContextMapSpec` and `ContextMapContents` |
| GraphNodeProperties.ContextMapSpec | graph/nodes/build_faq_context.py:10-14 | the loop succeeds iff every entry does, otherwise it raises the first failing question's error |
| GraphNodeProperties.ContextMapContents | graph/nodes/build_faq_context.py:8-16 | the keys are exactly 0..n-1 and entry i is the context of question i |
| GraphNodes.AnswerAll | graph/nodes/generate_faq_answers.py:10-29 | the loop computes the answers and errors of `Answered` |
| GraphNodes.GenerateFaqAnswers | graph/nodes/generate_faq_answers.py:6-34 | client failure propagates with nothing changed; otherwise answers are replaced, errors only appended, and one line logged |
| GraphNodes.AnsweredOfStrings | graph/nodes/generate_faq_answers.py:12-29 | when every question is a string, every one fails with a `TypeError` and there are no answers |
| GraphNodes.AnswerOne | graph/nodes/generate_faq_answers.py:13-29 | one pass of the `try` body; stated by `AnswerOneSpec` |
| GraphNodes.Answered | graph/nodes/generate_faq_answers.py:12-29 | the answers, errors and calls of the loop; stated by `AnsweredCounts` and `AnsweredOfRecords` |
| GraphNodeProperties.AnswerOneSpec | graph/nodes/generate_faq_answers.py:13-29 | a record costs one model call and is answered iff the call returns text, with its category and question copied |
| GraphNodeProperties.AnsweredCounts | graph/nodes/generate_faq_answers.py:12-29 | each question yields exactly one answer or one error; at most one call each |
| GraphNodeProperties.AnsweredOfRecords | graph/nodes/generate_faq_answers.py:12-29 | with well-formed questions and a model that always answers, no errors, and answer k is for question k with reply k |
| GraphNodes.Build | graph/nodes/assemble_faq_page.py:7 | an undefined builder raises `AttributeError`, otherwise the builder's result |
| GraphNodes.AssembleFaqPage | graph/nodes/assemble_faq_page.py:5-9 | `faq_page` is set to the rendering of the answers with one log line; errors propagate with nothing changed |
| GraphNodes.AssembleProductPage | graph/nodes/assemble_product_page.py:5-11 | `product_page` is set to the rendering of product a with one log line; errors propagate |
| GraphNodes.GenerateComparison | graph/nodes/generate_comparison.py:6-20 | `compare` gets product a then b; the node succeeds iff the client exists, `compare` succeeds and the page builds; the blocks hold the products, the price comparison, the five sections and the summary; the page is the rendering of those blocks with one log line; each failure (client, non-dict product, missing name, price, builder) raises its own error with nothing changed |
| GraphNodes.Unpack | graph/nodes/validate_final_output.py:15 | `**page` succeeds exactly on dicts |
| GraphNodes.FinalErrors | graph/nodes/validate_final_output.py:9-33 | each page checked independently; a key appears iff its page fails its schema; a non-dict page escapes as an error |
| GraphNodes.FailedKeys | graph/nodes/validate_final_output.py:39 | the failed keys listed are exactly those in the error map |
| GraphNodes.ValidateFinalOutput | graph/nodes/validate_final_output.py:8-44 | the errors are overwritten (no `"questions"` entry survives) and exactly one summary line is logged |
| Graph.NamesDistinct | graph/graph.py:26-34 | exactly nine nodes, registered under distinct names |
| Graph.OnlyTheGateBranches | graph/graph.py:47-54 | only `validate_question_count` routes differently on `"retry"` and `"continue"` |
| Graph.OnlyCycleIsTheRetryEdge | graph/graph.py:41-68 | every edge except the retry edge moves strictly forward |
| Graph.DownstreamChain | graph/graph.py:59-68 | after the gate the order is fixed, ending at END |
| Graph.ParseStep | graph/graph.py:26 | parsing leaves the limits and the attempt counter alone |
| Graph.GenerateStep | graph/nodes/generate_questions.py:12 | a completed generation adds one attempt |
| Graph.GateStep | graph/nodes/validate_question_count.py:4-36 | the gate routes `"retry"` or `"continue"`, and retries only with attempts left |
| Graph.DownstreamStep | graph/graph.py:29-34 | later nodes leave the limits and the attempts alone |
| Graph.Step | graph/graph.py:26-34 | one node's effect on the counters and the route it yields |
| Graph.Entered | graph/graph.py:41-68 | entering a node keeps the trace a path and the generation count within bound |
| Graph.ProgressExtends | graph/graph.py:41-68 | following an edge preserves the run invariant |
| Graph.EdgeLowersMeasure | graph/graph.py:47-54 | every edge taken lowers (phase, attempt potential, rank), so the run terminates |
| Graph.Run | graph/graph.py:39-70 | the run starts at `parse_products`, follows edges, repeats only the question cycle, runs generation at most max(1, max - attempts) times, and ends at `validate_final_output` unless a node raises |
| Oracles.Generate | agents/answer_generation_agent.py:53 | a model call succeeds iff the oracle replies with text |

## Left out

- Network clients: the language model is an oracle returning text or failure; client construction is a `Result` in `GraphNodes.Env`.
- Prompt wording (`_build_prompt`, `_build_llm_prompt`, logic_blocks/comparison_block.py): only the template-name guard is modelled.
- The `supporting_context` argument (`faq_context_map.get(idx, {})`): it only feeds the prompt text.
- JSON decoding in `_generate_llm_questions`: its outcome is the `Expansion` datatype (no client, the call raised, or a decoded map).
- QuestionGeneration.Entry: a decoded list holds only strings. A list holding a list or a dict raises `TypeError` (unhashable) in the deduplication, and `1` and `True` deduplicate as one; neither is modelled.
- GenerateWithReply: states the merge for string-only replies; the `TypeError` of a reply list holding unhashable values is not modelled (see `QuestionGeneration.Entry`).
- Values.Key: a non-string key stands for its `str()` text, so `1` and `"1"` collide while `True` and `1` stay apart, the reverse of a Python dict.
- General float parsing in `_parse_price`: exponents, `inf`, `nan`, underscores and non-ASCII digits are not modelled; prices are integers or `[-]digits[.digits]` strings read exactly.
- ParsePrice: reads a string price exactly, whereas `int(float(s))` rounds to the nearest double (numerals above 2^53 lose precision, a fraction close enough to 1 rounds the integer part up) and raises `OverflowError` beyond about 1.8e308.
- ParsePriceOfIntText: holds for the exact reading only; in Python, integers above 2^53 do not round-trip through `float`.
- MagnitudeOfDigits: the exact value of the digits; `float` rounds digit strings above 2^53.
- MagnitudeOfParts: truncates the exact value; `float` can round a fraction close to 1 up to the next integer.
- MagnitudeOfDecimal: as `MagnitudeOfParts`; `"0.99999999999999999"` is 1 in Python and 0 in the model.
- NegativeDecimal: the same float rounding at the edges.
- TrailingJunkRejected: Python's `float` accepts `"12e5"` and `"1_000"`, which the model rejects.
- Floating-point prices and amounts in the comparison: values are integers.
- LangGraph internals (`StateGraph.compile`/`invoke`): replaced by the edge table and `Graph.Run`.
- Graph.Run: does not re-validate the state between nodes. LangGraph rebuilds a pydantic `AgentState` from each node's output before the next node runs; `generated_questions` is declared `List[Dict]` (graph/state.py:22) while `generate_questions_node` stores the category dict, so such a run would most likely stop with a `ValidationError` on entry to `validate_question_count`, before the retry cycle and `build_faq_context`. The consequences above hold for the model's run only.
- Graph.Run: has no step limit. LangGraph's recursion limit (25 steps by default) raises `GraphRecursionError` before `build_faq_context` when `max_question_generation_attempts` is large (about a dozen or more).
- pydantic coercion and extra-field handling: the schemas are strict structural predicates; the contents of `e.errors()` are not modelled.
- Error and log message texts are kept as datatype values, not rendered strings.
- `str.lower` covers ASCII only; `str()` of lists and dicts is approximated.
- Dict iteration order: `GraphNodes.Enumerate` yields the keys in an arbitrary order.
- JoinItems: joining a dict's keys in `_ingredients_block` is not modelled; a dict fails.
- Only strings, integers, booleans and `None` are dict keys; other keys fail.
- `_merge_questions` extends the base lists in place; the model returns a new map, so aliasing of `base` is not captured.
- Graph.Run: "a model run in which product a parses raises at `build_faq_context`" is not one of its ensures; it follows from `GraphNodes.GenerateQuestions` and `GraphNodes.BuildFaqContext`, and it assumes no per-node state validation (see the `Graph.Run` line on pydantic above).
- File I/O, entry points and the superseded orchestration (serialization_agent.py, runner.py, pipeline.py) are not part of this model.
- The commented-out class at agents/parser_agent.py:78-158 is not part of this model.
