/** Facts about sequences without duplicates. */
module Seqs {
  ghost predicate Distinct<T(!new)>(xs: seq<T>) {
    forall i, j | 0 <= j < i < |xs| :: xs[j] != xs[i]
  }

  ghost function Elements<T>(xs: seq<T>): set<T> {
    set x | x in xs
  }

  lemma {:induction false} DistinctCardinality<T(!new)>(xs: seq<T>)
    requires Distinct(xs)
    ensures |Elements(xs)| == |xs|
  {
    if xs != [] {
      var init, last := xs[..|xs| - 1], xs[|xs| - 1];
      DistinctCardinality(init);
      assert xs == init + [last];
      assert Elements(xs) == Elements(init) + {last};
    }
  }

  lemma {:induction false} CardinalityBound<T(!new)>(xs: seq<T>)
    ensures |Elements(xs)| <= |xs|
  {
    if xs != [] {
      var init, last := xs[..|xs| - 1], xs[|xs| - 1];
      CardinalityBound(init);
      assert xs == init + [last];
      assert Elements(xs) == Elements(init) + {last};
    }
  }

  lemma SubsetCardinality<T>(a: set<T>, b: set<T>)
    requires a <= b
    ensures |a| <= |b|
  {
    assert b == a + (b - a);
  }

  /** A duplicate-free sequence of elements of `ys` is no longer than `ys`. */
  lemma DistinctSubsetLength<T(!new)>(xs: seq<T>, ys: seq<T>)
    requires Distinct(xs)
    requires forall x | x in xs :: x in ys
    ensures |xs| <= |ys|
  {
    DistinctCardinality(xs);
    CardinalityBound(ys);
    SubsetCardinality(Elements(xs), Elements(ys));
  }

  /** A shorter sequence misses an element of a duplicate-free one. */
  lemma MissingElement<T(!new)>(xs: seq<T>, ys: seq<T>) returns (y: T)
    requires Distinct(ys) && |xs| < |ys|
    ensures y in ys && y !in xs
  {
    if forall y | y in ys :: y in xs {
      DistinctSubsetLength(ys, xs);
      assert false;
    }
    y :| y in ys && y !in xs;
  }
}
