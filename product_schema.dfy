/** The product page schema (`ProductPageSchema`) as a predicate on the keyword
    arguments the page is unpacked into. */
module ProductSchema {
  import opened Values

  /** `ProductPageSchema(**page)` succeeds: the literal page type `"product"` and a
      `content` mapping whose entries are not constrained. */
  predicate PageValid(page: map<string, Value>)
  {
    && "page_type" in page && page["page_type"] == Str("product")
    && "content" in page && page["content"].Dict?
  }
}
