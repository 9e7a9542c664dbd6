/** Properties of the node specifications: what one pass of `parse_products_node` leaves
    behind, what the context loop builds, and how the answer loop spends model calls. */
module GraphNodeProperties {
  import opened Outcomes
  import opened Values
  import opened Oracles
  import opened GraphState
  import opened GraphNodes
  import AnswerGeneration

  /** A question record as the answer loop reads it: `q["category"]` and `q["question"]`
      both succeed. */
  predicate IsRecord(item: Value)
  {
    item.Dict? && "category" in item.fields && "question" in item.fields
  }

  /** The answer record the loop appends for `item` when the model replies `text`. */
  function AnswerRecord(item: Value, text: string): Value
    requires IsRecord(item)
  {
    Dict(map["category" := item.fields["category"], "question" := item.fields["question"],
             "answer" := Str(AnswerGeneration.Postprocess(text))])
  }

  /** `parse_products_node` logs exactly one line, which says success exactly when both
      products parse; a failure adds the first parse error and nothing else; product a
      is kept once it parses, even when product b then fails; product b is stored only
      when both parse. */
  lemma ParseProductsOutcome(rawA: map<string, Value>, rawB: map<string, Value>, before: Parsed)
    ensures var after := ParseProductsEffect(rawA, rawB, before);
      var a := Normalized(rawA);
      var b := Normalized(rawB);
      && |after.log| == |before.log| + 1 && after.log[..|before.log|] == before.log
      && (after.log[|before.log|] == ProductsParsed <==> a.Ok? && b.Ok?)
      && (a.Ok? && b.Ok? ==> after.errors == before.errors)
      && (a.Err? ==> after.errors == before.errors + [a.error])
      && (a.Ok? && b.Err? ==> after.errors == before.errors + [b.error])
      && (a.Ok? ==> after.productA == a.value)
      && (a.Err? ==> after.productA == before.productA)
      && (a.Ok? && b.Ok? ==> after.productB == b.value)
      && (a.Err? || b.Err? ==> after.productB == before.productB)
  {
    var after := ParseProductsEffect(rawA, rawB, before);
    assert after.log[..|before.log|] == before.log;
  }

  /** One question of the answer loop: a record costs exactly one model call and is
      answered when that call returns text, with the category and question copied from
      the record and the cleaned reply as the answer; anything else fails before the
      model is called. */
  lemma AnswerOneSpec(llm: Llm, n: nat, item: Value)
    ensures var r := AnswerOne(llm, n, item);
      && r.calls == (if IsRecord(item) then 1 else 0)
      && (r.result.Ok? <==> IsRecord(item) && llm(n).Text?)
      && (r.result.Ok? ==> r.result.value == AnswerRecord(item, llm(n).text))
  {
    if IsRecord(item) {
      var reply := AnswerGeneration.GenerateAnswer(llm, n, item.fields["question"], AnswerGeneration.DefaultTemplate);
      assert reply.calls == 1;
    }
  }

  /** Every question adds exactly one answer or one error, and the loop makes at most
      one model call per question. */
  lemma {:induction false} AnsweredCounts(llm: Llm, items: seq<Value>)
    ensures |Answered(llm, items).answers| + |Answered(llm, items).errors| == |items|
    ensures Answered(llm, items).calls <= |items|
    ensures (forall k :: 0 <= k < |items| ==> IsRecord(items[k])) ==> Answered(llm, items).calls == |items|
    decreases |items|
  {
    if |items| > 0 {
      var front := items[..|items| - 1];
      AnsweredCounts(llm, front);
      AnswerOneSpec(llm, Answered(llm, front).calls, items[|items| - 1]);
      if forall k :: 0 <= k < |items| ==> IsRecord(items[k]) {
        assert forall k :: 0 <= k < |front| ==> front[k] == items[k];
      }
    }
  }

  /** Well-formed questions and a model that always answers: no error is recorded, and
      the k-th answer carries the k-th question and the k-th reply, cleaned. */
  lemma {:induction false} AnsweredOfRecords(llm: Llm, items: seq<Value>)
    requires forall k :: 0 <= k < |items| ==> IsRecord(items[k])
    requires forall k: nat :: k < |items| ==> llm(k).Text?
    ensures Answered(llm, items).errors == []
    ensures Answered(llm, items).calls == |items|
    ensures |Answered(llm, items).answers| == |items|
    ensures forall k :: 0 <= k < |items| ==> Answered(llm, items).answers[k] == AnswerRecord(items[k], llm(k).text)
    decreases |items|
  {
    if |items| > 0 {
      var n := |items| - 1;
      var front := items[..n];
      assert forall k :: 0 <= k < n ==> front[k] == items[k];
      AnsweredOfRecords(llm, front);
      var before := Answered(llm, front);
      assert before.calls == n;
      AnswerOneSpec(llm, n, items[n]);
      var one := AnswerOne(llm, n, items[n]);
      assert one.result == Ok(AnswerRecord(items[n], llm(n).text));
      var t := Answered(llm, items);
      assert t == Tally(before.answers + [one.result.value], [], n + 1);
      forall k | 0 <= k < |items|
        ensures t.answers[k] == AnswerRecord(items[k], llm(k).text)
      {
        if k < n {
          assert t.answers[k] == before.answers[k] && front[k] == items[k];
        }
      }
    }
  }

  /** The context loop succeeds exactly when every question's entry does, and otherwise
      raises the error of the first question that fails. */
  lemma {:induction false} ContextMapSpec(env: Env, product: Value, items: seq<Value>)
    ensures ContextMap(env, product, items).Ok? <==>
      forall k :: 0 <= k < |items| ==> ContextEntry(env, product, items[k]).Ok?
    ensures var r := ContextMap(env, product, items);
      r.Err? ==> exists k :: (0 <= k < |items| && ContextEntry(env, product, items[k]) == Err(r.error)
        && forall j :: 0 <= j < k ==> ContextEntry(env, product, items[j]).Ok?)
    decreases |items|
  {
    if |items| > 0 {
      var n := |items| - 1;
      var front := items[..n];
      ContextMapSpec(env, product, front);
      assert forall k :: 0 <= k < n ==> front[k] == items[k];
      var r := ContextMap(env, product, items);
      var earlier := ContextMap(env, product, front);
      var last := ContextEntry(env, product, items[n]);
      if earlier.Err? {
        var k :| 0 <= k < n && ContextEntry(env, product, front[k]) == Err(earlier.error)
          && forall j :: 0 <= j < k ==> ContextEntry(env, product, front[j]).Ok?;
        assert r == Err(earlier.error);
        assert ContextEntry(env, product, items[k]) == Err(r.error);
      } else if last.Err? {
        assert r == Err(last.error);
        assert ContextEntry(env, product, items[n]) == Err(r.error);
      } else {
        assert r.Ok?;
      }
    }
  }

  /** A completed context loop maps each index 0 .. n-1, and nothing else, to the
      context of that question. */
  lemma {:induction false} ContextMapContents(env: Env, product: Value, items: seq<Value>)
    requires ContextMap(env, product, items).Ok?
    ensures forall k :: k in ContextMap(env, product, items).value <==> 0 <= k < |items|
    ensures forall k :: 0 <= k < |items| ==> (ContextEntry(env, product, items[k]).Ok?
      && ContextMap(env, product, items).value[k] == ContextEntry(env, product, items[k]).value)
    decreases |items|
  {
    if |items| > 0 {
      var n := |items| - 1;
      var front := items[..n];
      var earlier := ContextMap(env, product, front);
      var last := ContextEntry(env, product, items[n]);
      assert earlier.Ok? && last.Ok?;
      ContextMapContents(env, product, front);
      var m := ContextMap(env, product, items).value;
      assert m == earlier.value[n := last.value];
      forall k | 0 <= k < |items|
        ensures ContextEntry(env, product, items[k]).Ok? && m[k] == ContextEntry(env, product, items[k]).value
      {
        if k < n {
          assert items[k] == front[k];
        }
      }
    }
  }
}
