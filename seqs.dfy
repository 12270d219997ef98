/** Generic facts about sequences used by the list handling of the model. */
module Seqs {

  /** No element occurs twice. */
  predicate Distinct<T(==)>(xs: seq<T>) {
    forall i, j | 0 <= i < j < |xs| :: xs[i] != xs[j]
  }

  /**
   * The distinct elements of `xs` in order of first occurrence: Python's
   * `list(dict.fromkeys(xs))`, and the `seen`-set loop that does the same.
   * An element is kept exactly when it did not occur earlier.
   */
  function FirstOccurrences<T(==)>(xs: seq<T>): (r: seq<T>)
    ensures forall i | 0 <= i < |r| :: r[i] in xs
    ensures forall i | 0 <= i < |xs| :: xs[i] in r
    ensures Distinct(r)
    ensures |r| <= |xs|
  {
    if xs == [] then []
    else
      var init := FirstOccurrences(xs[..|xs| - 1]);
      var last := xs[|xs| - 1];
      assert xs == xs[..|xs| - 1] + [last];
      if last in xs[..|xs| - 1] then init else init + [last]
  }

  /** A list without repeats is its own deduplication. */
  lemma {:induction false} FirstOccurrencesOfDistinct<T>(xs: seq<T>)
    requires Distinct(xs)
    ensures FirstOccurrences(xs) == xs
  {
    if xs != [] {
      var init := xs[..|xs| - 1];
      assert Distinct(init);
      FirstOccurrencesOfDistinct(init);
      assert xs[|xs| - 1] !in init;
      assert init + [xs[|xs| - 1]] == xs;
    }
  }

  /** Deduplicating twice is deduplicating once. */
  lemma FirstOccurrencesIdempotent<T>(xs: seq<T>)
    ensures FirstOccurrences(FirstOccurrences(xs)) == FirstOccurrences(xs)
  {
    FirstOccurrencesOfDistinct(FirstOccurrences(xs));
  }

  /** Appending an element already seen leaves the deduplicated list unchanged. */
  lemma FirstOccurrencesAppendSeen<T>(xs: seq<T>, x: T)
    requires x in xs
    ensures FirstOccurrences(xs + [x]) == FirstOccurrences(xs)
  {
    assert (xs + [x])[..|xs|] == xs;
  }

  /** Appending a new element puts it last. */
  lemma FirstOccurrencesAppendNew<T>(xs: seq<T>, x: T)
    requires x !in xs
    ensures FirstOccurrences(xs + [x]) == FirstOccurrences(xs) + [x]
  {
    assert (xs + [x])[..|xs|] == xs;
  }

  /** The number of occurrences of `x` in `xs`. */
  function Count<T(==)>(xs: seq<T>, x: T): nat {
    if xs == [] then 0
    else Count(xs[..|xs| - 1], x) + (if xs[|xs| - 1] == x then 1 else 0)
  }

  /** Regrouping a concatenation of four stretches. */
  lemma Regroup<T>(a: seq<T>, b: seq<T>, c: seq<T>, d: seq<T>)
    ensures a + (b + c + d) == a + b + c + d
  {
  }

  /** Counting over one more element of a prefix. */
  lemma CountPrefixStep<T>(xs: seq<T>, i: nat, x: T)
    requires i < |xs|
    ensures Count(xs[..i + 1], x) == Count(xs[..i], x) + (if xs[i] == x then 1 else 0)
  {
    assert xs[..i + 1][..i] == xs[..i];
  }

  /** `n` copies of `x`. */
  function Repeat<T>(x: T, n: nat): (r: seq<T>)
    ensures |r| == n && forall i | 0 <= i < n :: r[i] == x
  {
    if n == 0 then [] else Repeat(x, n - 1) + [x]
  }

  /** `xs` with every occurrence of `x` taken out, order kept. */
  function Remove<T(==)>(xs: seq<T>, x: T): (r: seq<T>)
    ensures forall i | 0 <= i < |r| :: r[i] in xs && r[i] != x
    ensures forall i | 0 <= i < |xs| :: xs[i] != x ==> xs[i] in r
    ensures Distinct(xs) ==> Distinct(r)
  {
    if xs == [] then []
    else
      var init := Remove(xs[..|xs| - 1], x);
      var last := xs[|xs| - 1];
      assert xs == xs[..|xs| - 1] + [last];
      if last == x then init else init + [last]
  }

  /** The elements of a list without repeats are as many as its positions. */
  lemma {:induction false} DistinctCardinality<T>(xs: seq<T>)
    requires Distinct(xs)
    ensures |set x | x in xs| == |xs|
  {
    if xs != [] {
      var init := xs[..|xs| - 1];
      var last := xs[|xs| - 1];
      assert Distinct(init);
      DistinctCardinality(init);
      assert xs == init + [last];
      assert last !in init;
      assert (set x | x in xs) == (set x | x in init) + {last};
    }
  }
}
