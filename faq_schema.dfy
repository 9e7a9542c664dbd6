/** The FAQ page schema (`FAQItem`, `FAQPageSchema`) as predicates on the keyword
    arguments the page is unpacked into. Extra keys are ignored, as by default. */
module FaqSchema {
  import opened Values

  /** `d[key]` exists and is a `str`. */
  predicate HasStr(d: map<string, Value>, key: string)
  {
    key in d && d[key].Str?
  }

  /** An `FAQItem`: `category`, `question` and `answer`, all strings. */
  predicate ItemValid(v: Value)
  {
    v.Dict? && HasStr(v.fields, "category") && HasStr(v.fields, "question") && HasStr(v.fields, "answer")
  }

  /** `FAQPageSchema(**page)` succeeds: the literal page type `"faq"`, an integer
      `total_questions` and a list of items. Nothing relates the count to the list. */
  predicate PageValid(page: map<string, Value>)
  {
    && "page_type" in page && page["page_type"] == Str("faq")
    && "total_questions" in page && page["total_questions"].Int?
    && "questions" in page && page["questions"].List?
    && forall k :: 0 <= k < |page["questions"].items| ==> ItemValid(page["questions"].items[k])
  }

  /** An item without `answer` is rejected, an empty page is accepted, and a page whose
      `total_questions` disagrees with its list is accepted. */
  lemma Examples()
    ensures !ItemValid(Dict(map["category" := Str("usage"), "question" := Str("How?")]))
    ensures PageValid(map["page_type" := Str("faq"), "total_questions" := Int(0), "questions" := List([])])
    ensures PageValid(map["page_type" := Str("faq"), "total_questions" := Int(15), "questions" := List([])])
    ensures !PageValid(map["page_type" := Str("FAQ"), "total_questions" := Int(0), "questions" := List([])])
  {
  }
}
