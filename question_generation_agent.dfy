/** `QuestionGenerationAgent`: the rule-based baseline of twelve questions, the optional
    merge with the questions a language model proposes, and the per-category validation. */
module QuestionGeneration {
  import opened Outcomes
  import opened Values
  import opened PyStrings
  import opened Lists

  const Categories: seq<string> :=
    ["informational", "usage", "safety", "ingredients", "pricing", "comparison"]

  const MinQuestionsPerCategory: nat := 2

  /** The questions of each category. */
  type Questions = map<string, seq<string>>

  /** One value of the decoded language-model reply: a list of question strings, or
      anything else. */
  datatype Entry = QuestionList(questions: seq<string>) | NotAList

  /** What `_generate_llm_questions` contributes. `NoClient`: the agent was built without
      a client and the step is skipped. `ClientRaised`: the client's `generate` raised.
      `Decoded(extra)`: the reply decoded to the object `extra`; a reply that is not a
      JSON object, or not JSON at all, is `Decoded(map[])`. */
  datatype Expansion = NoClient | ClientRaised(message: string) | Decoded(extra: map<string, Entry>)

  /** `product.get("name", "this product")`, as an f-string renders it. */
  function ProductName(product: map<string, Value>): string
  {
    Display(Get(product, "name", Str("this product")))
  }

  /** The twelve baseline questions about a product called `name`. */
  function Baseline(name: string): Questions
  {
    map[
      "informational" := ["What is " + name + "?", "What are the main benefits of " + name + "?"],
      "usage" := ["How should " + name + " be used?", "When is the best time to use " + name + "?"],
      "safety" := ["Is " + name + " safe to use?", "Are there any side effects of " + name + "?"],
      "ingredients" := ["What ingredients are used in " + name + "?",
                        "How do the ingredients in " + name + " help the skin?"],
      "pricing" := ["What is the price of " + name + "?", "Is " + name + " worth its price?"],
      "comparison" := ["How does " + name + " compare to similar products?",
                       "Is " + name + " better than alternative options?"]
    ]
  }

  /** `_generate_rule_based_questions`: only a dict has `get`, so any other product
      (`None` when parsing failed) raises. */
  function RuleBasedQuestions(product: Value): (r: Result<Questions>)
    ensures r.Ok? <==> product.Dict?
    ensures r.Err? ==> r.error == AttributeError(TypeName(product), "get")
    ensures r.Ok? ==> r.value == Baseline(ProductName(product.fields))
  {
    var _ :- GetAttr(product, "name", Str("this product"));
    Ok(Baseline(ProductName(product.fields)))
  }

  /** The extra questions a merge appends to `category`: a list under that key, or nothing. */
  function Accepted(extra: map<string, Entry>, category: string): seq<string>
  {
    if category in Categories && category in extra && extra[category].QuestionList?
    then extra[category].questions
    else []
  }

  /** Each category's list after the first loop of `_merge_questions`: the base questions
      followed by the accepted extras. */
  function Extended(base: Questions, extra: map<string, Entry>): Questions
  {
    map c | c in base :: base[c] + Accepted(extra, c)
  }

  /** What `_merge_questions` leaves in each category: the extended list, deduplicated
      keeping first occurrences. */
  function Merged(base: Questions, extra: map<string, Entry>): Questions
  {
    map c | c in base :: Unique(Extended(base, extra)[c])
  }

  /** `_merge_questions`: every category's list is extended by the extra list under the
      same key, then every list is deduplicated in place. */
  method MergeQuestions(base: Questions, extra: map<string, Entry>) returns (merged: Questions)
    requires forall c :: c in Categories && c in extra && extra[c].QuestionList? ==> c in base
    ensures merged == Merged(base, extra)
  {
    merged := ExtendCategories(base, extra);
    merged := DeduplicateEach(merged);
  }

  /** The first loop of `_merge_questions`. A category whose extras are a list must be a
      key of `base`, or the extension raises `KeyError`. */
  method ExtendCategories(base: Questions, extra: map<string, Entry>) returns (extended: Questions)
    requires forall c :: c in Categories && c in extra && extra[c].QuestionList? ==> c in base
    ensures extended == Extended(base, extra)
  {
    extended := base;
    for i := 0 to |Categories|
      invariant extended.Keys == base.Keys
      invariant forall c :: c in base ==>
        extended[c] == base[c] + (if c in Categories[..i] then Accepted(extra, c) else [])
    {
      var category := Categories[i];
      CategoriesPrefix(i);
      if category in extra && extra[category].QuestionList? {
        extended := extended[category := extended[category] + extra[category].questions];
      }
    }
    assert Categories[..|Categories|] == Categories;
  }

  /** Adding the next category to the prefix already handled. */
  lemma CategoriesPrefix(i: nat)
    requires i < |Categories|
    ensures forall c :: c in Categories[..i + 1] <==> c in Categories[..i] || c == Categories[i]
    ensures Categories[i] !in Categories[..i]
  {
    assert Categories[..i + 1] == Categories[..i] + [Categories[i]];
  }

  /** The second loop of `_merge_questions`: every list deduplicated, keys unchanged. */
  method DeduplicateEach(questions: Questions) returns (deduplicated: Questions)
    ensures deduplicated == map c | c in questions :: Unique(questions[c])
  {
    deduplicated := questions;
    var pending := questions.Keys;
    while pending != {}
      invariant deduplicated.Keys == questions.Keys && pending <= questions.Keys
      invariant forall c :: c in questions ==>
        deduplicated[c] == if c in pending then questions[c] else Unique(questions[c])
      decreases pending
    {
      var category :| category in pending;
      var list := Deduplicate(deduplicated[category]);
      deduplicated := deduplicated[category := list];
      pending := pending - {category};
    }
  }

  /** The comprehension with a `seen` set, one element at a time. */
  method Deduplicate(qs: seq<string>) returns (r: seq<string>)
    ensures r == Unique(qs)
  {
    var seen: set<string> := {};
    r := [];
    for i := 0 to |qs|
      invariant r + DedupFrom(qs[i..], seen) == Unique(qs)
    {
      DedupFromStep(qs, i, seen);
      if qs[i] !in seen {
        assert r + ([qs[i]] + DedupFrom(qs[i + 1..], seen + {qs[i]}))
          == (r + [qs[i]]) + DedupFrom(qs[i + 1..], seen + {qs[i]});
        r := r + [qs[i]];
        seen := seen + {qs[i]};
      }
    }
    assert r + DedupFrom(qs[|qs|..], seen) == r;
  }

  /** The problem `_validate_output` reports for one category, if any. */
  function CategoryProblem(questions: map<string, Value>, category: string): Option<Problem>
  {
    if category !in questions then Some(MissingCategory(category))
    else if !questions[category].List? then Some(CategoryNotAList(category))
    else if |questions[category].items| < MinQuestionsPerCategory then Some(TooFewQuestions(category))
    else None
  }

  /** The checks of `_validate_output` over `categories`, in order: the first category with
      a problem raises. */
  function ValidateCategories(questions: map<string, Value>, categories: seq<string>): (r: Result<()>)
    ensures r.Ok? <==> forall k :: 0 <= k < |categories| ==> CategoryProblem(questions, categories[k]).None?
  {
    if |categories| == 0 then Ok(())
    else
      match CategoryProblem(questions, categories[0])
      case Some(problem) => Err(ValueError(problem))
      case None => ValidateCategories(questions, categories[1..])
  }

  /** The error raised is the problem of the first category, in order, that has one. */
  lemma {:induction false} ValidateCategoriesFirst(questions: map<string, Value>, categories: seq<string>)
    requires ValidateCategories(questions, categories).Err?
    ensures exists k :: (0 <= k < |categories|
      && CategoryProblem(questions, categories[k]).Some?
      && ValidateCategories(questions, categories).error == ValueError(CategoryProblem(questions, categories[k]).value)
      && forall j :: 0 <= j < k ==> CategoryProblem(questions, categories[j]).None?)
  {
    if CategoryProblem(questions, categories[0]).Some? {
      assert 0 <= 0 < |categories|;
    } else {
      var rest := categories[1..];
      ValidateCategoriesFirst(questions, rest);
      var k :| 0 <= k < |rest|
        && CategoryProblem(questions, rest[k]).Some?
        && ValidateCategories(questions, rest).error == ValueError(CategoryProblem(questions, rest[k]).value)
        && forall j :: 0 <= j < k ==> CategoryProblem(questions, rest[j]).None?;
      assert categories[k + 1] == rest[k];
      forall j | 0 <= j < k + 1
        ensures CategoryProblem(questions, categories[j]).None?
      {
        if j > 0 { assert categories[j] == rest[j - 1]; }
      }
    }
  }

  /** `_validate_output` */
  function ValidateOutput(questions: map<string, Value>): (r: Result<()>)
    ensures r.Ok? <==> forall c :: c in Categories ==>
      c in questions && questions[c].List? && |questions[c].items| >= MinQuestionsPerCategory
  {
    var r := ValidateCategories(questions, Categories);
    assert r.Ok? <==> forall c :: c in Categories ==> CategoryProblem(questions, c).None? by {
      if r.Ok? {
        forall c | c in Categories ensures CategoryProblem(questions, c).None? {
          var k :| 0 <= k < |Categories| && Categories[k] == c;
        }
      }
    }
    r
  }

  /** The category map as the dict it is in Python. */
  function AsDict(questions: Questions): (d: map<string, Value>)
    ensures d.Keys == questions.Keys
    ensures forall c :: c in questions ==> d[c].List? && |d[c].items| == |questions[c]|
  {
    map c | c in questions :: Strings(questions[c])
  }

  /** `QuestionGenerationAgent.generate`: the baseline, merged with the model's questions
      when there is a client, then validated. */
  function Generate(product: Value, llm: Expansion): (r: Result<Questions>)
    ensures !product.Dict? ==> r == Err(AttributeError(TypeName(product), "get"))
    ensures llm.ClientRaised? && product.Dict? ==> r == Err(Raised(llm.message))
  {
    var base :- RuleBasedQuestions(product);
    var questions :- match llm
      case NoClient => Ok(base)
      case ClientRaised(message) => Err(Raised(message))
      case Decoded(extra) => Ok(Merged(base, extra));
    var _ :- ValidateOutput(AsDict(questions));
    Ok(questions)
  }
}

/** Properties of `QuestionGenerationAgent`: the shape of the baseline, what a merge keeps,
    and when `generate` succeeds. */
module QuestionGenerationProperties {
  import opened Outcomes
  import opened Values
  import opened PyStrings
  import opened Lists
  import opened QuestionGeneration

  /** The baseline's lists, one category at a time. */
  lemma BaselineFields(name: string)
    ensures var b := Baseline(name);
      && "informational" in b && b["informational"] == ["What is " + name + "?", "What are the main benefits of " + name + "?"]
      && "usage" in b && b["usage"] == ["How should " + name + " be used?", "When is the best time to use " + name + "?"]
      && "safety" in b && b["safety"] == ["Is " + name + " safe to use?", "Are there any side effects of " + name + "?"]
      && "ingredients" in b && b["ingredients"] == ["What ingredients are used in " + name + "?",
                                                    "How do the ingredients in " + name + " help the skin?"]
      && "pricing" in b && b["pricing"] == ["What is the price of " + name + "?", "Is " + name + " worth its price?"]
      && "comparison" in b && b["comparison"] == ["How does " + name + " compare to similar products?",
                                                  "Is " + name + " better than alternative options?"]
  {
  }

  /** Two different questions, both naming the product. */
  predicate NamedPair(questions: seq<string>, name: string)
  {
    |questions| == 2 && questions[0] != questions[1]
    && IsInfix(name, questions[0]) && IsInfix(name, questions[1])
  }

  /** `name` occurs in any string built around it. */
  lemma Embedded(prefix: string, name: string, suffix: string)
    ensures IsInfix(name, prefix + name + suffix)
  {
    var s := prefix + name + suffix;
    assert s[|prefix|..|prefix| + |name|] == name;
  }

  /** Two templates of different lengths give two different questions. */
  lemma TemplatePair(p1: string, s1: string, p2: string, s2: string, name: string)
    requires |p1| + |s1| != |p2| + |s2|
    ensures NamedPair([p1 + name + s1, p2 + name + s2], name)
  {
    Embedded(p1, name, s1);
    Embedded(p2, name, s2);
  }

  /** The baseline has exactly the six categories. */
  lemma BaselineKeys(name: string)
    ensures Baseline(name).Keys == {"informational", "usage", "safety", "ingredients", "pricing", "comparison"}
    ensures forall c :: c in Categories ==> c in Baseline(name)
    ensures |Baseline(name).Keys| == |Categories| == 6
  {
  }

  /** Each category of the baseline holds two different questions, both naming the product. */
  lemma BaselinePairs(name: string)
    ensures forall c :: c in Baseline(name) ==> NamedPair(Baseline(name)[c], name)
  {
    BaselineFields(name);
    TemplatePair("What is ", "?", "What are the main benefits of ", "?", name);
    TemplatePair("How should ", " be used?", "When is the best time to use ", "?", name);
    TemplatePair("Is ", " safe to use?", "Are there any side effects of ", "?", name);
    TemplatePair("What ingredients are used in ", "?", "How do the ingredients in ", " help the skin?", name);
    TemplatePair("What is the price of ", "?", "Is ", " worth its price?", name);
    TemplatePair("How does ", " compare to similar products?", "Is ", " better than alternative options?", name);
  }

  /** Two different questions leave at least two after deduplication. */
  lemma UniqueKeepsTwo(s: seq<string>, x: string, y: string)
    requires x in s && y in s && x != y
    ensures |Unique(s)| >= 2
  {
    UniqueSpec(s);
  }

  /** What a merge keeps in each category: exactly the base questions and the accepted
      extras, each once, in first-occurrence order. */
  lemma MergedSpec(base: Questions, extra: map<string, Entry>, c: string)
    requires c in base
    ensures c in Merged(base, extra)
    ensures forall x :: x in Merged(base, extra)[c] <==> x in base[c] || x in Accepted(extra, c)
    ensures Distinct(Merged(base, extra)[c])
    ensures IsSubsequence(Merged(base, extra)[c], base[c] + Accepted(extra, c))
    ensures forall i, j :: 0 <= i < j < |Merged(base, extra)[c]| ==>
      FirstIndex(base[c] + Accepted(extra, c), Merged(base, extra)[c][i])
        < FirstIndex(base[c] + Accepted(extra, c), Merged(base, extra)[c][j])
  {
    UniqueSpec(base[c] + Accepted(extra, c));
  }

  /** A key that is not one of the six categories, or whose extra value is not a list,
      gains nothing from the merge. */
  lemma MergeIgnores(base: Questions, extra: map<string, Entry>, c: string)
    requires c in base
    requires c !in Categories || c !in extra || extra[c].NotAList?
    ensures Merged(base, extra)[c] == Unique(base[c])
  {
    assert base[c] + [] == base[c];
  }

  /** `["Q1", "Q2"]` merged with `["Q2", "Q3"]` gives `["Q1", "Q2", "Q3"]`. */
  lemma MergeExample()
    ensures Unique(["Q1", "Q2"] + ["Q2", "Q3"]) == ["Q1", "Q2", "Q3"]
  {
    var s := ["Q1", "Q2"] + ["Q2", "Q3"];
    assert s == ["Q1", "Q2", "Q2", "Q3"];
    assert "Q1" != "Q2" by { assert "Q1"[1] != "Q2"[1]; }
    assert "Q2" != "Q3" by { assert "Q2"[1] != "Q3"[1]; }
    assert "Q1" != "Q3" by { assert "Q1"[1] != "Q3"[1]; }
    assert s[1..] == ["Q2", "Q2", "Q3"];
    assert DedupFrom(["Q3"], {"Q1", "Q2"}) == ["Q3"] by {
      assert ["Q3"][1..] == [];
    }
    assert DedupFrom(["Q2", "Q3"], {"Q1", "Q2"}) == ["Q3"] by {
      assert ["Q2", "Q3"][1..] == ["Q3"];
    }
    assert DedupFrom(["Q2", "Q2", "Q3"], {"Q1"}) == ["Q2", "Q3"] by {
      assert ["Q2", "Q2", "Q3"][1..] == ["Q2", "Q3"];
      assert "Q2" !in {"Q1"};
      assert {"Q1"} + {"Q2"} == {"Q1", "Q2"};
    }
    assert DedupFrom(s, {}) == ["Q1"] + DedupFrom(s[1..], {} + {"Q1"});
    assert {} + {"Q1"} == {"Q1"};
  }

  /** Merging with an empty reply leaves the baseline unchanged. */
  lemma MergeNothing(name: string)
    ensures Merged(Baseline(name), map[]) == Baseline(name)
  {
    BaselinePairs(name);
    MergeNothingOf(Baseline(name), name);
  }

  /** Merging an empty reply into lists of two different questions changes nothing. */
  lemma MergeNothingOf(base: Questions, name: string)
    requires forall c :: c in base ==> NamedPair(base[c], name)
    ensures Merged(base, map[]) == base
  {
    forall c | c in base ensures Merged(base, map[])[c] == base[c] {
      assert base[c] + [] == base[c];
      UniqueOfDistinct(base[c]);
    }
  }

  /** A category that held two different questions holds at least two after a merge. */
  lemma MergedKeepsPair(base: Questions, extra: map<string, Entry>, c: string, name: string)
    requires c in base && NamedPair(base[c], name)
    ensures c in Merged(base, extra) && |Merged(base, extra)[c]| >= 2
  {
    var s := base[c] + Accepted(extra, c);
    assert base[c][0] in s && base[c][1] in s;
    UniqueKeepsTwo(s, base[c][0], base[c][1]);
  }

  /** A merge keeps each baseline category with at least two questions, so the merged
      map always passes `_validate_output`. */
  lemma MergedBaselineValid(name: string, extra: map<string, Entry>)
    ensures ValidateOutput(AsDict(Merged(Baseline(name), extra))).Ok?
  {
    BaselineKeys(name);
    BaselinePairs(name);
    MergedValid(Baseline(name), extra, name);
  }

  /** Lists of two different questions under every category pass `_validate_output`
      after any merge. */
  lemma MergedValid(base: Questions, extra: map<string, Entry>, name: string)
    requires forall c :: c in Categories ==> c in base
    requires forall c :: c in base ==> NamedPair(base[c], name)
    ensures ValidateOutput(AsDict(Merged(base, extra))).Ok?
  {
    var m := Merged(base, extra);
    forall c | c in Categories
      ensures c in AsDict(m) && AsDict(m)[c].List? && |AsDict(m)[c].items| >= MinQuestionsPerCategory
    {
      MergedKeepsPair(base, extra, c, name);
    }
  }

  /** The baseline passes `_validate_output`. */
  lemma BaselineValid(name: string)
    ensures ValidateOutput(AsDict(Baseline(name))).Ok?
  {
    MergedBaselineValid(name, map[]);
    MergeNothing(name);
  }

  /** Without a client, `generate` returns the baseline for any dict product. */
  lemma GenerateWithoutClient(product: Value)
    requires product.Dict?
    ensures Generate(product, NoClient) == Ok(Baseline(ProductName(product.fields)))
  {
    BaselineValid(ProductName(product.fields));
  }

  /** An unusable reply leaves the result of `generate` as it is without a client. */
  lemma GenerateUnusableReply(product: Value)
    ensures Generate(product, Decoded(map[])) == Generate(product, NoClient)
  {
    if product.Dict? {
      MergeNothing(ProductName(product.fields));
    }
  }

  /** With a decoded reply, `generate` succeeds for every dict product with the merge. */
  lemma GenerateWithReply(product: Value, extra: map<string, Entry>)
    requires product.Dict?
    ensures Generate(product, Decoded(extra)) == Ok(Merged(Baseline(ProductName(product.fields)), extra))
  {
    MergedBaselineValid(ProductName(product.fields), extra);
  }

  /** Whatever the reply, a successful `generate` returns one list per category: six keys. */
  lemma GenerateHasSixCategories(product: Value, llm: Expansion)
    requires Generate(product, llm).Ok?
    ensures Generate(product, llm).value.Keys == Baseline(ProductName(product.fields)).Keys
    ensures |Generate(product, llm).value.Keys| == 6
  {
    BaselineKeys(ProductName(product.fields));
  }
}
