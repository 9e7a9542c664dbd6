/** The comparison page schema (`ComparisonPageSchema`) as a predicate on the keyword
    arguments the page is unpacked into. */
module ComparisonSchema {
  import opened Values

  /** `ComparisonPageSchema(**page)` succeeds: the literal page type `"comparison"` and
      a `comparison` mapping whose entries are not constrained. */
  predicate PageValid(page: map<string, Value>)
  {
    && "page_type" in page && page["page_type"] == Str("comparison")
    && "comparison" in page && page["comparison"].Dict?
  }
}
