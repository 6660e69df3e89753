/** The sizes of sets that are compared or change in one element. */
module Sets {
  lemma SubsetIsNoLarger<T>(small: set<T>, large: set<T>)
    requires small <= large
    ensures |small| <= |large|
  {
    assert large == small + (large - small);
  }

  function One(b: bool): nat {
    if b then 1 else 0
  }

  /** The size of a set that changes in at most one element. */
  lemma SizeAfter<T>(before: set<T>, after: set<T>, x: T)
    requires forall y | y != x :: y in before <==> y in after
    ensures |after| == |before| + One(x in after) - One(x in before)
  {
    var rest := before - {x};
    assert before == if x in before then rest + {x} else rest;
    assert after == if x in after then rest + {x} else rest;
  }
}
