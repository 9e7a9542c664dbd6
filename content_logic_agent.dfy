/** `ContentLogicAgent` (agents/content_logic_agent.py): each question is routed by its
    category to one of six rule-based logic blocks, which answers it from the product
    data alone. */
module ContentLogic {
  import opened Outcomes
  import opened Values
  import opened PyStrings

  /** The six logic blocks. */
  datatype Block = Informational | Usage | Safety | Ingredients | Pricing | Comparison

  /** The dispatch table `self.logic_blocks`. */
  const LogicBlocks: map<string, Block> := map[
    "informational" := Informational,
    "usage" := Usage,
    "safety" := Safety,
    "ingredients" := Ingredients,
    "pricing" := Pricing,
    "comparison" := Comparison
  ]

  const SafeSentence: string := "The product is generally safe to use."

  /** `category not in self.logic_blocks` and the lookup after it. The test is a dict
      membership test: exact and case-sensitive, and a list or dict category is
      unhashable. */
  function Dispatch(category: Value): (r: Result<Block>)
    ensures r.Ok? <==> category.Str? && category.s in LogicBlocks
    ensures r.Ok? ==> r.value == LogicBlocks[category.s]
    ensures (category.Str? && category.s !in LogicBlocks) || category.Null? ==> r == Err(ValueError(UnsupportedCategory))
  {
    match category
    case Str(s) => if s in LogicBlocks then Ok(LogicBlocks[s]) else Err(ValueError(UnsupportedCategory))
    case List(_) => Err(TypeError("unhashable type: 'list'"))
    case Dict(_) => Err(TypeError("unhashable type: 'dict'"))
    case _ => Err(ValueError(UnsupportedCategory))
  }

  /** The one-character strings a `str` iterates over. */
  function Chars(s: string): (cs: seq<string>)
    ensures |cs| == |s| && forall k :: 0 <= k < |s| ==> cs[k] == [s[k]]
  {
    seq(|s|, k requires 0 <= k < |s| => [s[k]])
  }

  /** The texts of a list of strings. */
  function Texts(items: seq<Value>): (ss: seq<string>)
    requires forall k :: 0 <= k < |items| ==> items[k].Str?
    ensures |ss| == |items| && forall k :: 0 <= k < |items| ==> items[k] == Str(ss[k])
  {
    seq(|items|, k requires 0 <= k < |items| => items[k].s)
  }

  /** `sep.join(v)`: a list of strings is joined, a string is joined character by
      character, and anything else raises `TypeError`. */
  function JoinItems(sep: string, v: Value): (r: Result<string>)
    ensures v.List? && (forall k :: 0 <= k < |v.items| ==> v.items[k].Str?) ==> r == Ok(Join(sep, Texts(v.items)))
    ensures v.Str? ==> r == Ok(Join(sep, Chars(v.s)))
    ensures r.Ok? ==> v.Str? || v.List?
    ensures v.List? && (exists k :: 0 <= k < |v.items| && !v.items[k].Str?) ==> r.Err?
  {
    match v
    case Str(s) => Ok(Join(sep, Chars(s)))
    case List(items) =>
      if forall k :: 0 <= k < |items| ==> items[k].Str? then Ok(Join(sep, Texts(items)))
      else Err(TypeError("sequence item: expected str instance"))
    case _ => Err(TypeError("can only join an iterable"))
  }

  /** `_informational_block` */
  function InformationalAnswer(product: Value): Result<Value>
  {
    var name :- Subscript(product, "name");
    var concentration :- Subscript(product, "concentration");
    var skinType :- Subscript(product, "skin_type");
    var skinTypes :- JoinItems(", ", skinType);
    var benefits :- Subscript(product, "benefits");
    var benefitText :- JoinItems(", ", benefits);
    Ok(Str(Display(name) + " is a skincare serum containing " + Display(concentration)
      + " Vitamin C. It is designed for " + skinTypes + " skin types and helps with "
      + Lower(benefitText) + "."))
  }

  /** `_safety_block`: the fixed sentence when `side_effects` is missing or falsy,
      otherwise the sentence followed by the lower-cased side effects. */
  function SafetyAnswer(product: Value): Result<Value>
  {
    var sideEffects :- GetAttr(product, "side_effects", Null);
    if !Truthy(sideEffects) then Ok(Str(SafeSentence))
    else if sideEffects.Str? then Ok(Str(SafeSentence + " However, " + Lower(sideEffects.s) + "."))
    else Err(AttributeError(TypeName(sideEffects), "lower"))
  }

  /** `_ingredients_block` */
  function IngredientsAnswer(product: Value): Result<Value>
  {
    var ingredients :- Subscript(product, "ingredients");
    var text :- JoinItems(", ", ingredients);
    Ok(Str("The key ingredients in this product are " + text + "."))
  }

  /** `_pricing_block` */
  function PricingAnswer(product: Value): Result<Value>
  {
    var price :- Subscript(product, "price");
    Ok(Str("The price of the product is " + Display(price) + "."))
  }

  /** `_comparison_block` */
  function ComparisonAnswer(product: Value): Result<Value>
  {
    var concentration :- Subscript(product, "concentration");
    var price :- Subscript(product, "price");
    Ok(Str("A direct comparison cannot be made because details of other products are not available. "
      + "This product contains " + Display(concentration) + " Vitamin C and is priced at "
      + Display(price) + "."))
  }

  /** `self.logic_blocks[category](product_data)`; the usage block returns
      `product["usage"]` as it is, whatever its type. */
  function Answer(block: Block, product: Value): Result<Value>
  {
    match block
    case Informational => InformationalAnswer(product)
    case Usage => Subscript(product, "usage")
    case Safety => SafetyAnswer(product)
    case Ingredients => IngredientsAnswer(product)
    case Pricing => PricingAnswer(product)
    case Comparison => ComparisonAnswer(product)
  }

  /** One pass of the loop in `generate`: read `category` and `question` with `get`,
      dispatch, answer, and build `{category, question, answer}`. */
  function AnswerItem(product: Value, item: Value): (r: Result<Value>)
    ensures r.Ok? ==> item.Dict?
    ensures r.Ok? ==> var category := Get(item.fields, "category", Null);
      && Dispatch(category).Ok? && Answer(Dispatch(category).value, product).Ok?
      && r.value == Dict(map["category" := category,
                             "question" := Get(item.fields, "question", Null),
                             "answer" := Answer(Dispatch(category).value, product).value])
  {
    var category :- GetAttr(item, "category", Null);
    var question := Get(item.fields, "question", Null);
    var block :- Dispatch(category);
    var answer :- Answer(block, product);
    Ok(Dict(map["category" := category, "question" := question, "answer" := answer]))
  }

  /** The loop of `ContentLogicAgent.generate`, over any per-item step: the results in
      order, or the first item's error, with no partial list returned. */
  method InOrder<T, U>(items: seq<T>, step: T -> Result<U>) returns (r: Result<seq<U>>)
    ensures r.Ok? <==> forall k :: 0 <= k < |items| ==> step(items[k]).Ok?
    ensures r.Ok? ==> (|r.value| == |items|
      && forall k :: 0 <= k < |items| ==> r.value[k] == step(items[k]).value)
    ensures r.Err? ==> exists k :: (0 <= k < |items| && step(items[k]) == Err(r.error)
      && forall j :: 0 <= j < k ==> step(items[j]).Ok?)
  {
    var done: seq<U> := [];
    for i := 0 to |items|
      invariant |done| == i
      invariant forall k :: 0 <= k < i ==> step(items[k]).Ok? && done[k] == step(items[k]).value
    {
      var result := step(items[i]);
      if result.Err? {
        return Err(result.error);
      }
      done := done + [result.value];
    }
    return Ok(done);
  }

  /** `ContentLogicAgent.generate`: answers every question in order, or raises the
      first item's error, in which case no partial list is returned. */
  method Generate(product: Value, questions: seq<Value>) returns (r: Result<seq<Value>>)
    ensures r.Ok? <==> forall k :: 0 <= k < |questions| ==> AnswerItem(product, questions[k]).Ok?
    ensures r.Ok? ==> (|r.value| == |questions|
      && forall k :: 0 <= k < |questions| ==> r.value[k] == AnswerItem(product, questions[k]).value)
    ensures r.Err? ==> exists k :: (0 <= k < |questions| && AnswerItem(product, questions[k]) == Err(r.error)
      && forall j :: 0 <= j < k ==> AnswerItem(product, questions[j]).Ok?)
  {
    r := InOrder(questions, item => AnswerItem(product, item));
  }
}

/** Properties of `ContentLogicAgent`: the dispatch table, what answers depend on, and
    what each block says. */
module ContentLogicProperties {
  import opened Outcomes
  import opened Values
  import opened PyStrings
  import opened ContentLogic
  import QuestionGeneration

  /** The dispatch table has a block for exactly the six question categories. */
  lemma DispatchCoversCategories()
    ensures forall c :: c in LogicBlocks <==> c in QuestionGeneration.Categories
    ensures |LogicBlocks| == 6
  {
    assert LogicBlocks.Keys == {"informational", "usage", "safety", "ingredients", "pricing", "comparison"};
  }

  /** The lookup is case-sensitive: "Usage" is not a category. */
  lemma CapitalisedCategoryRejected(product: Value, question: Value)
    ensures AnswerItem(product, Dict(map["category" := Str("Usage"), "question" := question])).Err?
  {
    assert "Usage"[0] != "usage"[0];
    assert "Usage" !in LogicBlocks;
  }

  /** A dict item whose category is not in the table raises `ValueError`. */
  lemma UnknownCategoryRejected(product: Value, item: Value)
    requires item.Dict?
    requires var c := Get(item.fields, "category", Null); c.Null? || (c.Str? && c.s !in LogicBlocks)
    ensures AnswerItem(product, item) == Err(ValueError(UnsupportedCategory))
  {
  }

  /** The answer depends on the category and the product only: two items with the same
      category get the same answer, whatever their question text. */
  lemma AnswerIgnoresQuestion(product: Value, a: Value, b: Value)
    requires a.Dict? && b.Dict?
    requires Get(a.fields, "category", Null) == Get(b.fields, "category", Null)
    ensures AnswerItem(product, a).Ok? <==> AnswerItem(product, b).Ok?
    ensures AnswerItem(product, a).Ok? ==>
      AnswerItem(product, a).value.fields["answer"] == AnswerItem(product, b).value.fields["answer"]
      && AnswerItem(product, a).value.fields["category"] == AnswerItem(product, b).value.fields["category"]
  {
  }

  /** A dict item with a known category keeps its category and question. */
  lemma AnswerCopiesItem(product: Value, item: Value)
    requires AnswerItem(product, item).Ok?
    ensures var out := AnswerItem(product, item).value.fields;
      && out.Keys == {"category", "question", "answer"}
      && out["category"] == Get(item.fields, "category", Null)
      && out["question"] == Get(item.fields, "question", Null)
  {
  }

  /** The usage answer is `product["usage"]` unchanged. */
  lemma UsageVerbatim(product: Value)
    requires product.Dict? && "usage" in product.fields
    ensures Answer(Usage, product) == Ok(product.fields["usage"])
  {
  }

  /** Every safety answer on a dict product starts with the fixed sentence; it is the
      fixed sentence alone exactly when `side_effects` is missing or falsy, and otherwise
      carries the lower-cased side effects. */
  lemma SafetyAnswerShape(product: Value)
    requires product.Dict?
    ensures var se := Get(product.fields, "side_effects", Null);
      && (!Truthy(se) <==> Answer(Safety, product) == Ok(Str(SafeSentence)))
      && (Truthy(se) && se.Str? ==> (Answer(Safety, product).Ok?
            && IsInfix(Lower(se.s), Answer(Safety, product).value.s)))
      && (Answer(Safety, product).Ok? ==> (Answer(Safety, product).value.Str?
            && SafeSentence <= Answer(Safety, product).value.s))
  {
    var se := Get(product.fields, "side_effects", Null);
    if Truthy(se) && se.Str? {
      var text := SafeSentence + " However, " + Lower(se.s) + ".";
      var start := |SafeSentence + " However, "|;
      assert text[start..start + |Lower(se.s)|] == Lower(se.s);
      assert text[..|SafeSentence|] == SafeSentence;
      assert Answer(Safety, product) == Ok(Str(text));
      assert |text| > |SafeSentence|;
    }
  }

  /** A list built from strings gives those strings back. */
  lemma TextsOfStrings(ss: seq<string>)
    ensures forall k :: 0 <= k < |Strings(ss).items| ==> Strings(ss).items[k].Str?
    ensures Texts(Strings(ss).items) == ss
  {
  }

  /** The ingredients answer wraps whatever the join gives. */
  lemma IngredientsAnswerOfJoin(product: Value, text: string)
    requires product.Dict? && "ingredients" in product.fields
    requires JoinItems(", ", product.fields["ingredients"]) == Ok(text)
    ensures Answer(Ingredients, product) == Ok(Str("The key ingredients in this product are " + text + "."))
  {
  }

  /** A list of ingredients is joined with ", ". */
  lemma IngredientsAnswerOfList(product: Value, ingredients: seq<string>)
    requires product.Dict? && "ingredients" in product.fields
    requires product.fields["ingredients"] == Strings(ingredients)
    ensures Answer(Ingredients, product)
      == Ok(Str("The key ingredients in this product are " + Join(", ", ingredients) + "."))
  {
    TextsOfStrings(ingredients);
    IngredientsAnswerOfJoin(product, Join(", ", ingredients));
  }

  /** Every part of a join occurs in any sentence built around it. */
  lemma JoinedPartsNamed(prefix: string, parts: seq<string>, suffix: string)
    ensures forall k :: 0 <= k < |parts| ==> IsInfix(parts[k], prefix + Join(", ", parts) + suffix)
  {
    var joined := Join(", ", parts);
    JoinHasParts(", ", parts);
    forall k | 0 <= k < |parts|
      ensures IsInfix(parts[k], prefix + joined + suffix)
    {
      InfixOfConcat(parts[k], prefix, joined);
      InfixOfConcat(parts[k], prefix + joined, suffix);
    }
  }

  /** A list of ingredients is joined with ", " and every ingredient is named. */
  lemma IngredientsAnswerNamesAll(product: Value, ingredients: seq<string>)
    requires product.Dict? && "ingredients" in product.fields
    requires product.fields["ingredients"] == Strings(ingredients)
    ensures Answer(Ingredients, product).Ok?
    ensures forall k :: 0 <= k < |ingredients| ==> IsInfix(ingredients[k], Answer(Ingredients, product).value.s)
  {
    IngredientsAnswerOfList(product, ingredients);
    JoinedPartsNamed("The key ingredients in this product are ", ingredients, ".");
  }

  /** The pricing answer needs only a `price` key, and quotes the price. */
  lemma PricingAnswerQuotesPrice(product: Value)
    ensures Answer(Pricing, product).Ok? <==> product.Dict? && "price" in product.fields
    ensures Answer(Pricing, product).Ok? ==>
      IsInfix(Display(product.fields["price"]), Answer(Pricing, product).value.s)
  {
    if product.Dict? && "price" in product.fields {
      var price := Display(product.fields["price"]);
      assert price[0..|price|] == price;
      InfixOfConcat(price, "The price of the product is ", price);
      InfixOfConcat(price, "The price of the product is " + price, ".");
    }
  }

  /** The comparison answer needs `concentration` and `price`, and quotes both. */
  lemma ComparisonAnswerQuotesFields(product: Value)
    ensures Answer(Comparison, product).Ok? <==>
      product.Dict? && "concentration" in product.fields && "price" in product.fields
    ensures Answer(Comparison, product).Ok? ==>
      && IsInfix(Display(product.fields["concentration"]), Answer(Comparison, product).value.s)
      && IsInfix(Display(product.fields["price"]), Answer(Comparison, product).value.s)
  {
    if product.Dict? && "concentration" in product.fields && "price" in product.fields {
      var c := Display(product.fields["concentration"]);
      var price := Display(product.fields["price"]);
      var lead := "A direct comparison cannot be made because details of other products are not available. "
        + "This product contains ";
      var s1 := lead + c;
      var s2 := s1 + " Vitamin C and is priced at ";
      assert Answer(Comparison, product).value.s == s2 + price + ".";
      assert c[0..|c|] == c;
      assert price[0..|price|] == price;
      InfixOfConcat(c, lead, c);
      InfixOfConcat(c, s1, " Vitamin C and is priced at ");
      InfixOfConcat(c, s2, price);
      InfixOfConcat(c, s2 + price, ".");
      InfixOfConcat(price, s2, price);
      InfixOfConcat(price, s2 + price, ".");
    }
  }

  /** The informational answer names the product when the name is a string. */
  lemma InformationalNamesProduct(product: Value)
    requires Answer(Informational, product).Ok?
    requires product.fields["name"].Str?
    ensures IsInfix(product.fields["name"].s, Answer(Informational, product).value.s)
  {
    var p := product.fields;
    var name := p["name"].s;
    var s1 := name + " is a skincare serum containing " + Display(p["concentration"]);
    var s2 := s1 + " Vitamin C. It is designed for " + JoinItems(", ", p["skin_type"]).value;
    var s3 := s2 + " skin types and helps with " + Lower(JoinItems(", ", p["benefits"]).value) + ".";
    assert Answer(Informational, product).value.s == s3;
    assert name[0..|name|] == name;
    InfixOfConcat(name, name, " is a skincare serum containing ");
    InfixOfConcat(name, name + " is a skincare serum containing ", Display(p["concentration"]));
    InfixOfConcat(name, s1, " Vitamin C. It is designed for ");
    InfixOfConcat(name, s1 + " Vitamin C. It is designed for ", JoinItems(", ", p["skin_type"]).value);
    InfixOfConcat(name, s2, " skin types and helps with ");
    InfixOfConcat(name, s2 + " skin types and helps with ", Lower(JoinItems(", ", p["benefits"]).value));
    InfixOfConcat(name, s2 + " skin types and helps with " + Lower(JoinItems(", ", p["benefits"]).value), ".");
  }
}
