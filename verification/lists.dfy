/**
 * The array methods the components use, over immutable sequences:
 * `filter`, `find` / `findIndex`, `some`, `reduce` (as a sum) and the
 * "replace the matching element" idiom `xs.map(x => match(x) ? f(x) : x)`.
 */
module Lists {
  import opened Wrappers

  // ---------------------------------------------------------------------
  // Order-preserving sub-lists
  // ---------------------------------------------------------------------

  /** `r` is obtained from `xs` by deleting elements, keeping the order of the rest. */
  predicate IsSubsequence<T(==)>(r: seq<T>, xs: seq<T>)
    decreases |xs|
  {
    if |r| == 0 then true
    else if |xs| == 0 then false
    else if r[0] == xs[0] then IsSubsequence(r[1..], xs[1..])
    else IsSubsequence(r, xs[1..])
  }

  lemma {:induction false} SubsequenceOfSelf<T>(xs: seq<T>)
    ensures IsSubsequence(xs, xs)
  {
    if |xs| > 0 {
      SubsequenceOfSelf(xs[1..]);
    }
  }

  /** Dropping the head of the longer list keeps a subsequence of its tail one of it. */
  lemma {:induction false} SubsequenceOfTail<T>(r: seq<T>, xs: seq<T>)
    requires |xs| > 0 && IsSubsequence(r, xs[1..])
    ensures IsSubsequence(r, xs)
    decreases |xs|, |r|
  {
    if |r| > 0 && r[0] == xs[0] {
      SubsequenceDropHead(r, xs[1..]);
    }
  }

  /** A subsequence without its first element is still a subsequence. */
  lemma {:induction false} SubsequenceDropHead<T>(r: seq<T>, xs: seq<T>)
    requires |r| > 0 && IsSubsequence(r, xs)
    ensures IsSubsequence(r[1..], xs)
    decreases |xs|, |r|
  {
    if r[0] != xs[0] {
      SubsequenceDropHead(r, xs[1..]);
      SubsequenceOfTail(r[1..], xs);
    } else {
      SubsequenceOfTail(r[1..], xs);
    }
  }

  // ---------------------------------------------------------------------
  // filter
  // ---------------------------------------------------------------------

  /** `xs.filter(p)`. */
  function Filter<T(==)>(xs: seq<T>, p: T -> bool): (r: seq<T>)
    ensures |r| <= |xs|
    ensures forall i :: 0 <= i < |r| ==> r[i] in xs && p(r[i])
    ensures forall i :: 0 <= i < |xs| && p(xs[i]) ==> xs[i] in r
    ensures IsSubsequence(r, xs)
  {
    if |xs| == 0 then []
    else
      var rest := Filter(xs[1..], p);
      assert forall i :: 1 <= i < |xs| ==> xs[i] == xs[1..][i - 1];
      if p(xs[0]) then [xs[0]] + rest else rest
  }

  /** Filtering keeps each passing element as often as it occurs and drops the rest. */
  lemma {:induction false} FilterCounts<T>(xs: seq<T>, p: T -> bool)
    ensures forall x :: multiset(Filter(xs, p))[x] == if p(x) then multiset(xs)[x] else 0
  {
    if |xs| > 0 {
      FilterCounts(xs[1..], p);
      assert xs == [xs[0]] + xs[1..];
    }
  }

  /** No element occurs twice. */
  predicate Distinct<T(==)>(xs: seq<T>) {
    forall i, j :: 0 <= i < j < |xs| ==> xs[i] != xs[j]
  }

  /** Filtering a list without repeats gives a list without repeats. */
  lemma {:induction false} FilterKeepsDistinct<T>(xs: seq<T>, p: T -> bool)
    ensures Distinct(xs) ==> Distinct(Filter(xs, p))
  {
    if |xs| > 0 && Distinct(xs) {
      FilterKeepsDistinct(xs[1..], p);
      var rest := Filter(xs[1..], p);
      assert forall i :: 0 <= i < |rest| ==> rest[i] in xs[1..];
      assert xs[0] !in xs[1..];
    }
  }

  /** Filtering distributes over concatenation. */
  lemma {:induction false} FilterConcat<T>(a: seq<T>, b: seq<T>, p: T -> bool)
    ensures Filter(a + b, p) == Filter(a, p) + Filter(b, p)
  {
    if |a| > 0 {
      assert (a + b)[1..] == a[1..] + b;
      FilterConcat(a[1..], b, p);
    } else {
      assert a + b == b;
    }
  }

  /** Filtering keeps everything exactly when every element passes. */
  lemma {:induction false} FilterKeepsAll<T>(xs: seq<T>, p: T -> bool)
    ensures Filter(xs, p) == xs <==> forall i :: 0 <= i < |xs| ==> p(xs[i])
  {
    if |xs| > 0 {
      FilterKeepsAll(xs[1..], p);
      if !p(xs[0]) {
        assert |Filter(xs, p)| < |xs| by {
          assert |Filter(xs[1..], p)| <= |xs[1..]|;
        }
      } else {
        assert forall i :: 1 <= i < |xs| ==> xs[i] == xs[1..][i - 1];
      }
    }
  }

  /** Predicates that agree on every element filter alike. */
  lemma {:induction false} FilterCongruent<T>(xs: seq<T>, p: T -> bool, q: T -> bool)
    requires forall i :: 0 <= i < |xs| ==> p(xs[i]) == q(xs[i])
    ensures Filter(xs, p) == Filter(xs, q)
  {
    if |xs| > 0 {
      FilterCongruent(xs[1..], p, q);
    }
  }

  /** Filtering twice with the same predicate is filtering once. */
  lemma FilterIdempotent<T>(xs: seq<T>, p: T -> bool)
    ensures Filter(Filter(xs, p), p) == Filter(xs, p)
  {
    FilterKeepsAll(Filter(xs, p), p);
  }

  /** Elements that pass `p` and elements that fail it add up to the whole list. */
  lemma {:induction false} FilterComplementCount<T>(xs: seq<T>, p: T -> bool, q: T -> bool)
    requires forall i :: 0 <= i < |xs| ==> (q(xs[i]) <==> !p(xs[i]))
    ensures |Filter(xs, p)| + |Filter(xs, q)| == |xs|
  {
    if |xs| > 0 {
      FilterComplementCount(xs[1..], p, q);
    }
  }

  // ---------------------------------------------------------------------
  // findIndex / find / some
  // ---------------------------------------------------------------------

  /** `xs.findIndex(p)`, with `None` for -1. */
  function FirstIndex<T>(xs: seq<T>, p: T -> bool): (r: Option<nat>)
    ensures r.Some? ==> r.value < |xs| && p(xs[r.value])
    ensures r.Some? ==> forall j :: 0 <= j < r.value ==> !p(xs[j])
    ensures r.None? <==> forall j :: 0 <= j < |xs| ==> !p(xs[j])
  {
    if |xs| == 0 then None
    else if p(xs[0]) then Some(0)
    else match FirstIndex(xs[1..], p)
      case None => None
      case Some(i) => Some(i + 1)
  }

  /** Predicates that agree on every element find the same index. */
  lemma {:induction false} FirstIndexCongruent<T>(xs: seq<T>, p: T -> bool, q: T -> bool)
    requires forall i :: 0 <= i < |xs| ==> p(xs[i]) == q(xs[i])
    ensures FirstIndex(xs, p) == FirstIndex(xs, q)
  {
    if |xs| > 0 {
      FirstIndexCongruent(xs[1..], p, q);
    }
  }

  /** `xs.find(p)`, with `None` for `undefined`. */
  function Find<T>(xs: seq<T>, p: T -> bool): Option<T> {
    match FirstIndex(xs, p)
    case None => None
    case Some(i) => Some(xs[i])
  }

  /** The keys of a list of key/value pairs, in order. */
  function Keys<V>(ps: seq<(string, V)>): (ks: seq<string>)
    ensures |ks| == |ps| && forall i :: 0 <= i < |ps| ==> ks[i] == ps[i].0
  {
    seq(|ps|, i requires 0 <= i < |ps| => ps[i].0)
  }

  // ---------------------------------------------------------------------
  // map that replaces the matching elements
  // ---------------------------------------------------------------------

  /** `xs.map(x => sel(x) ? f(x) : x)`. */
  function UpdateWhere<T>(xs: seq<T>, sel: T -> bool, f: T -> T): (r: seq<T>)
    ensures |r| == |xs|
    ensures forall i :: 0 <= i < |xs| && sel(xs[i]) ==> r[i] == f(xs[i])
    ensures forall i :: 0 <= i < |xs| && !sel(xs[i]) ==> r[i] == xs[i]
  {
    if |xs| == 0 then []
    else [if sel(xs[0]) then f(xs[0]) else xs[0]] + UpdateWhere(xs[1..], sel, f)
  }

  // ---------------------------------------------------------------------
  // reduce((sum, x) => sum + g(x), 0)
  // ---------------------------------------------------------------------

  function SumOf<T>(xs: seq<T>, g: T -> real): real {
    if |xs| == 0 then 0.0 else SumOf(xs[..|xs| - 1], g) + g(xs[|xs| - 1])
  }

  /** A sum over a concatenation is the sum of the two parts. */
  lemma {:induction false} SumOfConcat<T>(xs: seq<T>, ys: seq<T>, g: T -> real)
    ensures SumOf(xs + ys, g) == SumOf(xs, g) + SumOf(ys, g)
    decreases |ys|
  {
    if |ys| == 0 {
      assert xs + ys == xs;
    } else {
      var init := ys[..|ys| - 1];
      SumOfConcat(xs, init, g);
      assert (xs + ys)[..|xs + ys| - 1] == xs + init;
    }
  }

  /** Two lists whose elements agree on `g`, position by position, have the same sum. */
  lemma {:induction false} SumOfPointwise<T>(xs: seq<T>, ys: seq<T>, g: T -> real)
    requires |xs| == |ys|
    requires forall i :: 0 <= i < |xs| ==> g(xs[i]) == g(ys[i])
    ensures SumOf(xs, g) == SumOf(ys, g)
  {
    if |xs| > 0 {
      SumOfPointwise(xs[..|xs| - 1], ys[..|ys| - 1], g);
    }
  }
}
