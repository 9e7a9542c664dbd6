/** `AnswerGenerationAgent` (agents/answer_generation_agent.py): one model call per FAQ
    question, guarded by the prompt-template name, with light cleaning of the reply. */
module AnswerGeneration {
  import opened Outcomes
  import opened Values
  import opened PyStrings
  import opened Oracles

  /** The only prompt template `_build_prompt` knows. */
  const DefaultTemplate: string := "faq_answer_v1"

  /** The check at the top of `_build_prompt`. The prompt text itself is not modelled. */
  function CheckTemplate(template: string): (r: Result<()>)
    ensures r.Ok? <==> template == DefaultTemplate
    ensures r.Err? ==> r.error == ValueError(UnknownPromptTemplate(template))
  {
    if template != DefaultTemplate then Err(ValueError(UnknownPromptTemplate(template))) else Ok(())
  }

  /** `_postprocess_answer`: an empty answer stays empty; otherwise whitespace, then
      double quotes, then single quotes are stripped from both ends. */
  function Postprocess(answer: string): string
  {
    if answer == [] then "" else StripChars(StripChars(Strip(answer), {'"'}), {'\''})
  }

  /** `generate_answer` with the model's replies numbered from `first`: the template is
      checked before the model is called, the model is called once, and the question is
      returned with the cleaned answer. */
  function GenerateAnswer(llm: Llm, first: nat, question: Value, template: string): (r: Called<map<string, Value>>)
  {
    if CheckTemplate(template).Err? then Called(Err(CheckTemplate(template).error), 0)
    else match Generate(llm, first)
      case Ok(text) => Called(Ok(map["question" := question, "answer" := Str(Postprocess(text))]), 1)
      case Err(e) => Called(Err(e), 1)
  }
}

/** Properties of `AnswerGenerationAgent`. */
module AnswerGenerationProperties {
  import opened Outcomes
  import opened Values
  import opened PyStrings
  import opened Oracles
  import opened AnswerGeneration

  /** An unknown template raises `ValueError` and the model is never called. */
  lemma UnknownTemplateNoCall(llm: Llm, first: nat, question: Value, template: string)
    requires template != DefaultTemplate
    ensures GenerateAnswer(llm, first, question, template) == Called(Err(ValueError(UnknownPromptTemplate(template))), 0)
  {
  }

  /** With the known template the model is called exactly once; the call succeeds iff the
      reply is text, and then the question comes back unchanged beside the cleaned reply. */
  lemma KnownTemplateOneCall(llm: Llm, first: nat, question: Value)
    ensures GenerateAnswer(llm, first, question, DefaultTemplate).calls == 1
    ensures GenerateAnswer(llm, first, question, DefaultTemplate).result.Ok? <==> llm(first).Text?
    ensures llm(first).Text? ==> (GenerateAnswer(llm, first, question, DefaultTemplate).result.value
      == map["question" := question, "answer" := Str(Postprocess(llm(first).text))])
  {
  }

  /** The cleaned answer is a contiguous piece of the reply and neither starts nor ends
      with a single quote; an empty reply gives the empty answer. */
  lemma PostprocessShape(answer: string)
    ensures IsInfix(Postprocess(answer), answer)
    ensures var r := Postprocess(answer); |r| > 0 ==> r[0] != '\'' && r[|r| - 1] != '\''
    ensures answer == [] ==> Postprocess(answer) == []
  {
    if answer == [] {
      assert answer[0..0] == [];
    } else {
      var s1 := Strip(answer);
      var s2 := StripChars(s1, {'"'});
      assert Postprocess(answer) == StripChars(s2, {'\''});
      assert IsInfix(Postprocess(answer), answer) by {
        StripCharsIsInfix(answer, Whitespace);
        StripCharsIsInfix(s1, {'"'});
        StripCharsIsInfix(s2, {'\''});
        InfixTransitive(s2, s1, answer);
        InfixTransitive(Postprocess(answer), s2, answer);
      }
      StripCharsEnds(s2, {'\''});
    }
  }

  /** A reply that is already clean is kept as it is. */
  lemma PostprocessOfClean(answer: string)
    requires |answer| > 0 ==> IsGraphic(answer[0]) && IsGraphic(answer[|answer| - 1])
    requires |answer| > 0 ==> answer[0] !in {'"', '\''} && answer[|answer| - 1] !in {'"', '\''}
    ensures Postprocess(answer) == answer
  {
    StripOfGraphicEnds(answer);
    StripCharsOfClean(answer, {'"'});
    StripCharsOfClean(answer, {'\''});
  }
}
