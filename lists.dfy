/** Order-preserving list helpers: subsequences and first-occurrence deduplication
    (`[q for q in qs if not (q in seen or seen.add(q))]`). */
module Lists {

  /** `a` is `b` with some elements left out, order kept. */
  predicate IsSubsequence<T(==)>(a: seq<T>, b: seq<T>)
  {
    if |a| == 0 then true
    else if |b| == 0 then false
    else (a[0] == b[0] && IsSubsequence(a[1..], b[1..])) || IsSubsequence(a, b[1..])
  }

  /** No element occurs twice. */
  predicate Distinct<T(==)>(s: seq<T>)
  {
    forall i, j :: 0 <= i < j < |s| ==> s[i] != s[j]
  }

  /** The elements of `qs` kept by the comprehension when `seen` already holds the
      elements met so far: each element not yet seen, at its first occurrence. */
  function DedupFrom<T(==)>(qs: seq<T>, seen: set<T>): seq<T>
  {
    if |qs| == 0 then []
    else if qs[0] in seen then DedupFrom(qs[1..], seen)
    else [qs[0]] + DedupFrom(qs[1..], seen + {qs[0]})
  }

  /** Deduplication starting from an empty `seen` set. */
  function Unique<T(==)>(qs: seq<T>): seq<T>
  {
    DedupFrom(qs, {})
  }

  /** An element is kept iff it occurs and was not seen before. */
  lemma {:induction false} DedupFromElements<T>(qs: seq<T>, seen: set<T>)
    ensures forall x :: x in DedupFrom(qs, seen) <==> x in qs && x !in seen
  {
    if |qs| > 0 {
      DedupFromElements(qs[1..], seen);
      DedupFromElements(qs[1..], seen + {qs[0]});
      assert forall x :: x in qs <==> x == qs[0] || x in qs[1..];
    }
  }

  /** No element is kept twice. */
  lemma {:induction false} DedupFromDistinct<T>(qs: seq<T>, seen: set<T>)
    ensures Distinct(DedupFrom(qs, seen))
  {
    if |qs| > 0 && qs[0] !in seen {
      DedupFromDistinct(qs[1..], seen + {qs[0]});
      DedupFromElements(qs[1..], seen + {qs[0]});
    } else if |qs| > 0 {
      DedupFromDistinct(qs[1..], seen);
    }
  }

  /** The kept elements appear in the order of the input. */
  lemma {:induction false} DedupFromSubsequence<T>(qs: seq<T>, seen: set<T>)
    ensures IsSubsequence(DedupFrom(qs, seen), qs)
  {
    if |qs| > 0 {
      if qs[0] in seen {
        DedupFromSubsequence(qs[1..], seen);
        SubsequenceOfTail(DedupFrom(qs[1..], seen), qs);
      } else {
        DedupFromSubsequence(qs[1..], seen + {qs[0]});
        var r := DedupFrom(qs, seen);
        assert r[1..] == DedupFrom(qs[1..], seen + {qs[0]});
      }
    }
  }

  /** A subsequence of the tail is a subsequence of the whole. */
  lemma SubsequenceOfTail<T>(a: seq<T>, b: seq<T>)
    requires |b| > 0 && IsSubsequence(a, b[1..])
    ensures IsSubsequence(a, b)
  {
  }

  /** A list without duplicates, none of whose elements was seen, is kept whole. */
  lemma {:induction false} DedupFromOfDistinct<T>(qs: seq<T>, seen: set<T>)
    requires Distinct(qs)
    requires forall k :: 0 <= k < |qs| ==> qs[k] !in seen
    ensures DedupFrom(qs, seen) == qs
  {
    if |qs| > 0 {
      assert qs[0] !in qs[1..];
      DedupFromOfDistinct(qs[1..], seen + {qs[0]});
    }
  }

  /** The position of the first occurrence of `x` in `qs`. */
  function FirstIndex<T(==)>(qs: seq<T>, x: T): (k: nat)
    requires x in qs
    ensures k < |qs| && qs[k] == x
    ensures forall j :: 0 <= j < k ==> qs[j] != x
  {
    if qs[0] == x then 0 else 1 + FirstIndex(qs[1..], x)
  }

  /** The kept elements come in the order of their first occurrences in the input. */
  lemma {:induction false} DedupFromFirstOrder<T>(qs: seq<T>, seen: set<T>)
    ensures forall x :: x in DedupFrom(qs, seen) ==> x in qs
    ensures forall i, j :: 0 <= i < j < |DedupFrom(qs, seen)| ==>
      FirstIndex(qs, DedupFrom(qs, seen)[i]) < FirstIndex(qs, DedupFrom(qs, seen)[j])
  {
    DedupFromElements(qs, seen);
    if |qs| > 0 {
      var r := DedupFrom(qs, seen);
      var s := if qs[0] in seen then seen else seen + {qs[0]};
      var rest := DedupFrom(qs[1..], s);
      DedupFromFirstOrder(qs[1..], s);
      DedupFromElements(qs[1..], s);
      forall x | x in rest
        ensures x != qs[0] && FirstIndex(qs, x) == 1 + FirstIndex(qs[1..], x)
      {
      }
      forall i, j | 0 <= i < j < |r|
        ensures FirstIndex(qs, r[i]) < FirstIndex(qs, r[j])
      {
        if qs[0] in seen {
          assert r == rest;
        } else {
          assert r == [qs[0]] + rest;
          assert r[j] == rest[j - 1];
          if i > 0 {
            assert r[i] == rest[i - 1];
          }
        }
      }
    }
  }

  /** `Unique` keeps exactly the elements of its input, without duplicates, each at its
      first occurrence and in the order of those occurrences. */
  lemma UniqueSpec<T>(qs: seq<T>)
    ensures forall x :: x in Unique(qs) <==> x in qs
    ensures Distinct(Unique(qs))
    ensures IsSubsequence(Unique(qs), qs)
    ensures forall i, j :: 0 <= i < j < |Unique(qs)| ==> FirstIndex(qs, Unique(qs)[i]) < FirstIndex(qs, Unique(qs)[j])
  {
    DedupFromElements(qs, {});
    DedupFromDistinct(qs, {});
    DedupFromSubsequence(qs, {});
    DedupFromFirstOrder(qs, {});
  }

  /** A list without duplicates is its own deduplication, so deduplicating twice is
      deduplicating once. */
  lemma UniqueOfDistinct<T>(qs: seq<T>)
    requires Distinct(qs)
    ensures Unique(qs) == qs
  {
    DedupFromOfDistinct(qs, {});
  }

  lemma UniqueIdempotent<T>(qs: seq<T>)
    ensures Unique(Unique(qs)) == Unique(qs)
  {
    DedupFromDistinct(qs, {});
    UniqueOfDistinct(Unique(qs));
  }

  /** Deduplication with an accumulator: the elements kept so far followed by what the
      rest of the list contributes. */
  lemma DedupFromStep<T>(qs: seq<T>, i: nat, seen: set<T>)
    requires i < |qs|
    ensures DedupFrom(qs[i..], seen)
      == (if qs[i] in seen then DedupFrom(qs[i + 1..], seen)
          else [qs[i]] + DedupFrom(qs[i + 1..], seen + {qs[i]}))
  {
    assert qs[i..][1..] == qs[i + 1..];
  }
}
