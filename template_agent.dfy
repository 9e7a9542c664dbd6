/** `TemplateAgent` (agents/template_agent.py): the page layouts. Each renderer copies
    block entries under the page's own keys; a missing block raises `KeyError`. */
module Template {
  import opened Outcomes
  import opened Values

  type Page = map<string, Value>

  /** `_render_product_page` */
  function RenderProductPage(blocks: Value): (r: Result<Page>)
    ensures r.Ok? <==> (blocks.Dict? && "overview" in blocks.fields && "ingredients" in blocks.fields
      && "benefits" in blocks.fields && "usage" in blocks.fields && "pricing" in blocks.fields
      && "safety" in blocks.fields && "skin_type" in blocks.fields)
    ensures blocks.Dict? && "overview" !in blocks.fields ==> r == Err(KeyError("overview"))
  {
    var overview :- Subscript(blocks, "overview");
    var ingredients :- Subscript(blocks, "ingredients");
    var benefits :- Subscript(blocks, "benefits");
    var usage :- Subscript(blocks, "usage");
    var pricing :- Subscript(blocks, "pricing");
    var safety :- Subscript(blocks, "safety");
    var skinType :- Subscript(blocks, "skin_type");
    Ok(map[
      "page_type" := Str("product_page"),
      "product_overview" := overview,
      "ingredients_section" := ingredients,
      "benefits_section" := benefits,
      "usage_section" := usage,
      "pricing_section" := pricing,
      "safety_section" := safety,
      "skin_type_section" := skinType
    ])
  }

  /** `_render_faq_page` */
  function RenderFaqPage(blocks: Value): (r: Result<Page>)
    ensures r.Ok? <==> blocks.Dict? && "faq_count" in blocks.fields && "faqs" in blocks.fields
    ensures blocks.Dict? && "faq_count" !in blocks.fields ==> r == Err(KeyError("faq_count"))
  {
    var count :- Subscript(blocks, "faq_count");
    var faqs :- Subscript(blocks, "faqs");
    Ok(map["page_type" := Str("faq"), "total_questions" := count, "questions" := faqs])
  }

  /** `_render_comparison_page` */
  function RenderComparisonPage(blocks: Value): (r: Result<Page>)
    ensures r.Ok? <==> (blocks.Dict? && "products" in blocks.fields && "price_comparison" in blocks.fields
      && "ingredients_comparison" in blocks.fields && "benefits_comparison" in blocks.fields
      && "summary" in blocks.fields)
    ensures blocks.Dict? && "products" !in blocks.fields ==> r == Err(KeyError("products"))
  {
    var products :- Subscript(blocks, "products");
    var price :- Subscript(blocks, "price_comparison");
    var ingredients :- Subscript(blocks, "ingredients_comparison");
    var benefits :- Subscript(blocks, "benefits_comparison");
    var summary :- Subscript(blocks, "summary");
    Ok(map[
      "page_type" := Str("comparison"),
      "products_compared" := products,
      "price_comparison" := price,
      "ingredients_comparison" := ingredients,
      "benefits_comparison" := benefits,
      "summary" := summary
    ])
  }

  /** `TemplateAgent.render` */
  function Render(contentType: string, blocks: Value): (r: Result<Page>)
    ensures contentType !in {"product_page", "faq", "comparison"} ==> r == Err(ValueError(UnsupportedContentType(contentType)))
  {
    if contentType == "product_page" then RenderProductPage(blocks)
    else if contentType == "faq" then RenderFaqPage(blocks)
    else if contentType == "comparison" then RenderComparisonPage(blocks)
    else Err(ValueError(UnsupportedContentType(contentType)))
  }
}

/** What the rendered pages contain, and how they fare against the page schemas. */
module TemplateProperties {
  import opened Outcomes
  import opened Values
  import opened Template
  import FaqSchema
  import ProductSchema
  import ComparisonSchema

  /** The FAQ page takes its count from `faq_count` as given, without recounting, and its
      questions from `faqs`. */
  lemma FaqPageCopies(blocks: Value)
    requires RenderFaqPage(blocks).Ok?
    ensures var page := RenderFaqPage(blocks).value;
      && page.Keys == {"page_type", "total_questions", "questions"}
      && page["page_type"] == Str("faq")
      && page["total_questions"] == blocks.fields["faq_count"]
      && page["questions"] == blocks.fields["faqs"]
  {
  }

  /** The FAQ page passes its schema exactly when the count is an integer and the
      questions are a list of valid items. */
  lemma FaqPageSchema(blocks: Value)
    requires RenderFaqPage(blocks).Ok?
    ensures FaqSchema.PageValid(RenderFaqPage(blocks).value) <==>
      (blocks.fields["faq_count"].Int? && blocks.fields["faqs"].List?
       && forall k :: 0 <= k < |blocks.fields["faqs"].items| ==> FaqSchema.ItemValid(blocks.fields["faqs"].items[k]))
  {
  }

  /** The product page is labelled "product_page", which the product schema, expecting
      "product", always rejects. */
  lemma ProductPageFailsSchema(blocks: Value)
    requires Render("product_page", blocks).Ok?
    ensures Render("product_page", blocks).value["page_type"] == Str("product_page")
    ensures !ProductSchema.PageValid(Render("product_page", blocks).value)
  {
    assert "product_page" != "product" by { assert |"product_page"| != |"product"|; }
  }

  /** The product page copies its seven sections from the blocks. */
  lemma ProductPageCopies(blocks: Value)
    requires RenderProductPage(blocks).Ok?
    ensures var page := RenderProductPage(blocks).value;
      && |page.Keys| == 8
      && page["product_overview"] == blocks.fields["overview"]
      && page["ingredients_section"] == blocks.fields["ingredients"]
      && page["benefits_section"] == blocks.fields["benefits"]
      && page["usage_section"] == blocks.fields["usage"]
      && page["pricing_section"] == blocks.fields["pricing"]
      && page["safety_section"] == blocks.fields["safety"]
      && page["skin_type_section"] == blocks.fields["skin_type"]
  {
  }

  /** The comparison page has no `comparison` entry, so the comparison schema always
      rejects it. */
  lemma ComparisonPageFailsSchema(blocks: Value)
    requires Render("comparison", blocks).Ok?
    ensures "comparison" !in Render("comparison", blocks).value
    ensures !ComparisonSchema.PageValid(Render("comparison", blocks).value)
  {
    var page := Render("comparison", blocks).value;
    assert page.Keys == {"page_type", "products_compared", "price_comparison", "ingredients_comparison",
                         "benefits_comparison", "summary"};
  }

  /** The comparison page copies five blocks and drops the skin-type, usage and
      side-effects sections. */
  lemma ComparisonPageCopies(blocks: Value)
    requires RenderComparisonPage(blocks).Ok?
    ensures var page := RenderComparisonPage(blocks).value;
      && |page.Keys| == 6
      && page["products_compared"] == blocks.fields["products"]
      && page["price_comparison"] == blocks.fields["price_comparison"]
      && page["ingredients_comparison"] == blocks.fields["ingredients_comparison"]
      && page["benefits_comparison"] == blocks.fields["benefits_comparison"]
      && page["summary"] == blocks.fields["summary"]
      && "skin_type_comparison" !in page && "usage_comparison" !in page && "side_effects_comparison" !in page
  {
  }

  /** A page type that is not one of the three raises `ValueError`, whatever the blocks. */
  lemma UnknownContentType(blocks: Value)
    ensures Render("product", blocks) == Err(ValueError(UnsupportedContentType("product")))
    ensures Render("FAQ", blocks) == Err(ValueError(UnsupportedContentType("FAQ")))
  {
  }
}
