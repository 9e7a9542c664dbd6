/** `ComparisonAgent` (agents/comparison_agent.py): a deterministic price comparison,
    five field-by-field verdicts and one overall summary from the comparison model. */
module Comparison {
  import opened Outcomes
  import opened Values
  import opened Oracles

  /** `LLM_FIELDS` in insertion order: the output section and the product field. */
  const LlmFields: seq<(string, string)> := [
    ("ingredients_comparison", "ingredients"),
    ("benefits_comparison", "benefits"),
    ("skin_type_comparison", "skin_type"),
    ("usage_comparison", "usage"),
    ("side_effects_comparison", "side_effects")
  ]

  /** The sections written by the first `n` passes of the loop in `compare`. */
  function Sections(n: nat): set<string>
    requires n <= |LlmFields|
  {
    set k | 0 <= k < n :: LlmFields[k].0
  }

  /** The keys of a comparison. */
  const OutputKeys: set<string> := {
    "products", "price_comparison", "ingredients_comparison", "benefits_comparison",
    "skin_type_comparison", "usage_comparison", "side_effects_comparison", "summary"
  }

  /** `_extract_price_amount`: the `amount` of a dict price, otherwise the price itself. */
  function PriceAmount(product: map<string, Value>): (r: Value)
    ensures "price" in product && product["price"].Dict? ==> r == Get(product["price"].fields, "amount", Null)
    ensures !("price" in product && product["price"].Dict?) ==> r == Get(product, "price", Null)
  {
    var price := Get(product, "price", Null);
    if price.Dict? then Get(price.fields, "amount", Null) else price
  }

  /** The `cheaper` choice of `_compare_price`: nothing unless both amounts are numbers
      (`bool` included), otherwise `a` when strictly cheaper and `b` on a tie. */
  function Cheaper(nameA: Value, priceA: Value, nameB: Value, priceB: Value): (r: Value)
    ensures !(IsNumber(priceA) && IsNumber(priceB)) ==> r == Null
    ensures IsNumber(priceA) && IsNumber(priceB) ==> r == nameA || r == nameB
  {
    if IsNumber(priceA) && IsNumber(priceB) then
      if Number(priceA) < Number(priceB) then nameA else nameB
    else Null
  }

  /** `_compare_price`: `{name_a: price_a, name_b: price_b, "cheaper_option": cheaper}`. */
  function ComparePrice(a: map<string, Value>, b: map<string, Value>): (r: Result<Value>)
    ensures r.Ok? <==> "name" in a && "name" in b && Key(a["name"]).Ok? && Key(b["name"]).Ok?
  {
    var nameA :- Subscript(Dict(a), "name");
    var nameB :- Subscript(Dict(b), "name");
    var priceA := PriceAmount(a);
    var priceB := PriceAmount(b);
    var cheaper := Cheaper(nameA, priceA, nameB, priceB);
    var keyA :- Key(nameA);
    var keyB :- Key(nameB);
    Ok(Dict(map[keyA := priceA][keyB := priceB]["cheaper_option" := cheaper]))
  }

  /** A field's values, `[]` in place of a missing field or `None`. */
  function FieldValues(product: map<string, Value>, field: string): (r: Value)
    ensures r != Null
    ensures Get(product, field, Null) != Null ==> r == product[field]
    ensures Get(product, field, Null) == Null ==> r == List([])
  {
    var values := Get(product, field, Null);
    if values != Null then values else List([])
  }

  /** `_compare_field` whose model call is the one numbered `n`:
      `{name_a: values_a, name_b: values_b, "verdict": verdict}`. */
  function CompareField(field: string, a: map<string, Value>, b: map<string, Value>, llm: Llm, n: nat): (r: Result<Value>)
  {
    var nameA :- Subscript(Dict(a), "name");
    var nameB :- Subscript(Dict(b), "name");
    var valuesA := FieldValues(a, field);
    var valuesB := FieldValues(b, field);
    var verdict :- Generate(llm, n);
    var keyA :- Key(nameA);
    var keyB :- Key(nameB);
    Ok(Dict(map[keyA := valuesA][keyB := valuesB]["verdict" := Str(verdict)]))
  }

  /** The section numbered `k` of `LLM_FIELDS`, asked with call `first + k`. */
  function Section(a: map<string, Value>, b: map<string, Value>, llm: Llm, first: nat, k: nat): Result<Value>
    requires k < |LlmFields|
  {
    CompareField(LlmFields[k].1, a, b, llm, first + k)
  }

  /** The five sections, asked in `LLM_FIELDS` order from call `first` on, all succeed. */
  predicate SectionsSucceed(a: map<string, Value>, b: map<string, Value>, llm: Llm, first: nat)
  {
    forall k :: 0 <= k < |LlmFields| ==> Section(a, b, llm, first, k).Ok?
  }

  /** When `compare` succeeds: both products are dicts with non-empty names usable as
      keys, and every model call, the five sections and then the summary, returns text. */
  predicate Compares(a: Value, b: Value, llm: Llm, first: nat)
  {
    && a.Dict? && b.Dict?
    && Truthy(Get(a.fields, "name", Null)) && Truthy(Get(b.fields, "name", Null))
    && ComparePrice(a.fields, b.fields).Ok?
    && SectionsSucceed(a.fields, b.fields, llm, first) && llm(first + 5).Text?
  }

  /** `ComparisonAgent.compare` with the model's replies numbered from `first`; `calls`
      is the number of model calls made. */
  method Compare(a: Value, b: Value, llm: Llm, first: nat) returns (r: Result<map<string, Value>>, calls: nat)
    ensures calls <= 6
    ensures !a.Dict? ==> r == Err(AttributeError(TypeName(a), "get")) && calls == 0
    ensures a.Dict? && !b.Dict? ==> r == Err(AttributeError(TypeName(b), "get")) && calls == 0
    ensures a.Dict? && b.Dict?
      && (!Truthy(Get(a.fields, "name", Null)) || !Truthy(Get(b.fields, "name", Null)))
      ==> r == Err(ValueError(NamesRequired)) && calls == 0
    ensures (a.Dict? && b.Dict? && Truthy(Get(a.fields, "name", Null)) && Truthy(Get(b.fields, "name", Null))
             && ComparePrice(a.fields, b.fields).Err?)
      ==> r == Err(ComparePrice(a.fields, b.fields).error) && calls == 0
    ensures r.Ok? <==> Compares(a, b, llm, first)
    ensures r.Ok? ==> (calls == 6 && r.value.Keys == OutputKeys
      && r.value["products"] == Dict(map["product_a" := a.fields["name"], "product_b" := b.fields["name"]])
      && r.value["price_comparison"] == ComparePrice(a.fields, b.fields).value
      && (forall k :: 0 <= k < |LlmFields| ==>
            r.value[LlmFields[k].0] == Section(a.fields, b.fields, llm, first, k).value)
      && r.value["summary"] == Str(llm(first + 5).text))
  {
    if !a.Dict? {
      return Err(AttributeError(TypeName(a), "get")), 0;
    }
    var nameA := Get(a.fields, "name", Null);
    if !b.Dict? {
      return Err(AttributeError(TypeName(b), "get")), 0;
    }
    var nameB := Get(b.fields, "name", Null);
    if !Truthy(nameA) || !Truthy(nameB) {
      return Err(ValueError(NamesRequired)), 0;
    }
    var price := ComparePrice(a.fields, b.fields);
    if price.Err? {
      return Err(price.error), 0;
    }
    var output := map["products" := Dict(map["product_a" := nameA, "product_b" := nameB]),
                      "price_comparison" := price.value];
    SectionsAll();
    r, calls := AskModel(a.fields, b.fields, llm, first, output);
  }

  /** The model-calling part of `compare`: the five sections, then the summary, added to
      the entries already in `output`. */
  method AskModel(a: map<string, Value>, b: map<string, Value>, llm: Llm, first: nat, output: map<string, Value>)
    returns (r: Result<map<string, Value>>, calls: nat)
    requires output.Keys !! Sections(|LlmFields|) && "summary" !in output
    ensures calls <= |LlmFields| + 1
    ensures r.Ok? <==> SectionsSucceed(a, b, llm, first) && llm(first + |LlmFields|).Text?
    ensures r.Ok? ==> (calls == |LlmFields| + 1 && r.value.Keys == output.Keys + Sections(|LlmFields|) + {"summary"}
      && (forall key :: key in output ==> r.value[key] == output[key])
      && (forall k :: 0 <= k < |LlmFields| ==> r.value[LlmFields[k].0] == Section(a, b, llm, first, k).value)
      && r.value["summary"] == Str(llm(first + |LlmFields|).text))
  {
    var sections;
    sections, calls := AskSections(a, b, llm, first, output);
    if sections.Err? {
      return Err(sections.error), calls;
    }
    var summary := Generate(llm, first + |LlmFields|);
    calls := calls + 1;
    if summary.Err? {
      return Err(summary.error), calls;
    }
    SummaryIsNoSection();
    forall k | 0 <= k < |LlmFields| ensures LlmFields[k].0 != "summary" {
      assert LlmFields[k].0 in Sections(|LlmFields|);
    }
    return Ok(sections.value["summary" := Str(summary.value)]), calls;
  }

  lemma SummaryIsNoSection()
    ensures "summary" !in Sections(|LlmFields|)
  {
    SectionsAll();
  }

  /** The loop over `LLM_FIELDS` in `compare`: one model call per section, in order,
      each result stored under its section name; the first failure is raised. */
  method AskSections(a: map<string, Value>, b: map<string, Value>, llm: Llm, first: nat, output: map<string, Value>)
    returns (r: Result<map<string, Value>>, calls: nat)
    requires output.Keys !! Sections(|LlmFields|)
    ensures calls <= |LlmFields|
    ensures r.Ok? <==> SectionsSucceed(a, b, llm, first)
    ensures r.Ok? ==> (calls == |LlmFields| && r.value.Keys == output.Keys + Sections(|LlmFields|)
      && (forall key :: key in output ==> r.value[key] == output[key])
      && (forall k :: 0 <= k < |LlmFields| ==>
            r.value[LlmFields[k].0] == Section(a, b, llm, first, k).value))
  {
    var sections := output;
    calls := 0;
    for i := 0 to |LlmFields|
      invariant calls == i
      invariant sections.Keys == output.Keys + Sections(i)
      invariant forall key :: key in output ==> sections[key] == output[key]
      invariant forall k :: 0 <= k < i ==>
        Section(a, b, llm, first, k).Ok? && sections[LlmFields[k].0] == Section(a, b, llm, first, k).value
    {
      var section := Section(a, b, llm, first, i);
      calls := calls + 1;
      if section.Err? {
        return Err(section.error), calls;
      }
      assert LlmFields[i].0 !in output by {
        assert LlmFields[i].0 in Sections(|LlmFields|);
      }
      SectionNamesDistinct();
      sections := sections[LlmFields[i].0 := section.value];
      assert Sections(i + 1) == Sections(i) + {LlmFields[i].0};
    }
    return Ok(sections), calls;
  }

  /** No two entries of `LLM_FIELDS` share a section name. */
  lemma SectionNamesDistinct()
    ensures forall j, k :: 0 <= j < k < |LlmFields| ==> LlmFields[j].0 != LlmFields[k].0
  {
    var names := seq(|LlmFields|, k requires 0 <= k < |LlmFields| => LlmFields[k].0);
    assert forall k :: 0 <= k < |LlmFields| ==> LlmFields[k].0 == names[k];
    assert names[0][0] == 'i' && names[1][0] == 'b' && names[2][0] == 's' && names[3][0] == 'u' && names[4][0] == 's';
    assert names[2][1] == 'k' && names[4][1] == 'i';
  }

  /** The five sections are five distinct keys, none of them "products",
      "price_comparison" or "summary". */
  lemma SectionsAll()
    ensures {"products", "price_comparison"} !! Sections(|LlmFields|)
    ensures "summary" !in {"products", "price_comparison"} + Sections(|LlmFields|)
    ensures {"products", "price_comparison"} + Sections(|LlmFields|) + {"summary"} == OutputKeys
  {
    assert Sections(|LlmFields|) == {"ingredients_comparison", "benefits_comparison",
      "skin_type_comparison", "usage_comparison", "side_effects_comparison"} by {
      assert LlmFields[0].0 in Sections(5);
      assert LlmFields[1].0 in Sections(5);
      assert LlmFields[2].0 in Sections(5);
      assert LlmFields[3].0 in Sections(5);
      assert LlmFields[4].0 in Sections(5);
    }
  }
}

/** Properties of `ComparisonAgent`'s price rule and field sections. */
module ComparisonProperties {
  import opened Outcomes
  import opened Values
  import opened Oracles
  import opened Comparison

  /** With numeric amounts, the product named cheaper is never the dearer one. */
  lemma CheaperIsLowest(nameA: Value, priceA: Value, nameB: Value, priceB: Value)
    requires IsNumber(priceA) && IsNumber(priceB) && nameA != nameB
    ensures Cheaper(nameA, priceA, nameB, priceB) == nameA ==> Number(priceA) < Number(priceB)
    ensures Cheaper(nameA, priceA, nameB, priceB) == nameB ==> Number(priceB) <= Number(priceA)
  {
  }

  /** A tie goes to the second product. */
  lemma TieGoesToSecond(nameA: Value, priceA: Value, nameB: Value, priceB: Value)
    requires IsNumber(priceA) && IsNumber(priceB) && Number(priceA) == Number(priceB)
    ensures Cheaper(nameA, priceA, nameB, priceB) == nameB
  {
  }

  /** With different numeric amounts, swapping the products names the same one. */
  lemma CheaperSwap(nameA: Value, priceA: Value, nameB: Value, priceB: Value)
    requires IsNumber(priceA) && IsNumber(priceB) && Number(priceA) != Number(priceB)
    ensures Cheaper(nameB, priceB, nameA, priceA) == Cheaper(nameA, priceA, nameB, priceB)
  {
  }

  /** `True` counts as the number 1 in the price rule. */
  lemma BoolPriceIsNumber(nameA: Value, nameB: Value)
    ensures Cheaper(nameA, Bool(true), nameB, Int(2)) == nameA
    ensures Cheaper(nameA, Bool(true), nameB, Str("2")) == Null
  {
  }

  /** For two products with different string names and integer prices, the price
      comparison maps each name to its price and names the cheaper one. */
  lemma PriceComparisonOfInts(a: map<string, Value>, b: map<string, Value>, nameA: string, nameB: string, x: int, y: int)
    requires "name" in a && a["name"] == Str(nameA) && "price" in a && a["price"] == Int(x)
    requires "name" in b && b["name"] == Str(nameB) && "price" in b && b["price"] == Int(y)
    requires nameA != nameB && nameA != "cheaper_option" && nameB != "cheaper_option"
    ensures ComparePrice(a, b).Ok?
    ensures var m := ComparePrice(a, b).value.fields;
      && m.Keys == {nameA, nameB, "cheaper_option"}
      && m[nameA] == Int(x) && m[nameB] == Int(y)
      && m["cheaper_option"] == (if x < y then Str(nameA) else Str(nameB))
  {
  }

  /** A price given as a dict contributes its `amount`. */
  lemma DictPriceAmount(product: map<string, Value>, amount: Value)
    requires "price" in product && product["price"] == Dict(map["amount" := amount])
    ensures PriceAmount(product) == amount
  {
  }

  /** A section keeps both products' values, `[]` for a missing or `None` field, and the
      verdict is the reply to its call. */
  lemma SectionShape(field: string, a: map<string, Value>, b: map<string, Value>, llm: Llm, n: nat)
    requires "name" in a && a["name"].Str? && "name" in b && b["name"].Str?
    requires a["name"] != b["name"] && a["name"].s != "verdict" && b["name"].s != "verdict"
    ensures CompareField(field, a, b, llm, n).Ok? <==> llm(n).Text?
    ensures llm(n).Text? ==> (var m := CompareField(field, a, b, llm, n).value.fields;
      && m.Keys == {a["name"].s, b["name"].s, "verdict"}
      && m[a["name"].s] == FieldValues(a, field) && m[b["name"].s] == FieldValues(b, field)
      && m[a["name"].s] != Null && m[b["name"].s] != Null
      && m["verdict"] == Str(llm(n).text))
  {
  }
}
