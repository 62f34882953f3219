/** `Array.prototype.filter` and the order-preservation facts the stores and
    screens rely on. */
module Seqs {
  import opened Wrappers

  /** `a` can be obtained from `b` by deleting elements, keeping the order. */
  predicate IsSubsequence<T(==)>(a: seq<T>, b: seq<T>)
    decreases |b|
  {
    if a == [] then true
    else if b == [] then false
    else (a[0] == b[0] && IsSubsequence(a[1..], b[1..])) || IsSubsequence(a, b[1..])
  }

  /** Every sequence is a subsequence of itself. */
  lemma {:induction false} SubsequenceReflexive<T>(a: seq<T>)
    ensures IsSubsequence(a, a)
    decreases |a|
  {
    if a != [] {
      SubsequenceReflexive(a[1..]);
    }
  }

  /** Elements of a subsequence come from the original sequence. */
  lemma {:induction false} SubsequenceMembers<T>(a: seq<T>, b: seq<T>)
    requires IsSubsequence(a, b)
    ensures forall k :: 0 <= k < |a| ==> a[k] in b
    decreases |b|
  {
    if a != [] && b != [] {
      if a[0] == b[0] && IsSubsequence(a[1..], b[1..]) {
        SubsequenceMembers(a[1..], b[1..]);
        assert forall k :: 1 <= k < |a| ==> a[k] == a[1..][k - 1];
      } else {
        SubsequenceMembers(a, b[1..]);
      }
    }
  }

  /** A subsequence of a subsequence is a subsequence. */
  lemma {:induction false} SubsequenceTransitive<T>(a: seq<T>, b: seq<T>, c: seq<T>)
    requires IsSubsequence(a, b) && IsSubsequence(b, c)
    ensures IsSubsequence(a, c)
    decreases |c|
  {
    if a != [] && c != [] {
      if IsSubsequence(b, c[1..]) {
        SubsequenceTransitive(a, b, c[1..]);
      } else if a[0] == b[0] && IsSubsequence(a[1..], b[1..]) {
        SubsequenceTransitive(a[1..], b[1..], c[1..]);
      } else {
        SubsequenceTransitive(a, b[1..], c[1..]);
      }
    }
  }

  /** A property every element of `b` has, every element of a subsequence has. */
  lemma {:induction false} SubsequenceAll<T>(a: seq<T>, b: seq<T>, P: T -> bool)
    requires IsSubsequence(a, b)
    requires forall k :: 0 <= k < |b| ==> P(b[k])
    ensures forall k :: 0 <= k < |a| ==> P(a[k])
    decreases |b|
  {
    if a != [] && b != [] {
      if a[0] == b[0] && IsSubsequence(a[1..], b[1..]) {
        SubsequenceAll(a[1..], b[1..], P);
        assert forall k :: 1 <= k < |a| ==> a[k] == a[1..][k - 1];
      } else {
        SubsequenceAll(a, b[1..], P);
      }
    }
  }

  /** `xs.filter(keep)`: the elements satisfying `keep`, in their original order. */
  function Filter<T>(xs: seq<T>, keep: T -> bool): (r: seq<T>)
    ensures |r| <= |xs|
    ensures forall k :: 0 <= k < |r| ==> keep(r[k])
    ensures forall k :: 0 <= k < |xs| && keep(xs[k]) ==> xs[k] in r
    ensures IsSubsequence(r, xs)
    decreases |xs|
  {
    if xs == [] then []
    else
      var rest := Filter(xs[1..], keep);
      assert forall k :: 1 <= k < |xs| ==> xs[k] == xs[1..][k - 1];
      if keep(xs[0]) then
        assert ([xs[0]] + rest)[1..] == rest;
        [xs[0]] + rest
      else
        rest
  }

  /** A filter keeps every copy of an element that passes and no copy of one
      that fails. */
  lemma {:induction false} FilterMultiplicity<T>(xs: seq<T>, keep: T -> bool)
    ensures forall x :: multiset(Filter(xs, keep))[x] == if keep(x) then multiset(xs)[x] else 0
    decreases |xs|
  {
    if xs != [] {
      var rest := Filter(xs[1..], keep);
      FilterMultiplicity(xs[1..], keep);
      assert xs == [xs[0]] + xs[1..];
      assert multiset(xs) == multiset{xs[0]} + multiset(xs[1..]);
      if keep(xs[0]) {
        assert multiset([xs[0]] + rest) == multiset{xs[0]} + multiset(rest);
      }
    }
  }

  /** A subsequence holds no more copies of anything than the original. */
  lemma {:induction false} SubsequenceMultiset<T>(a: seq<T>, b: seq<T>)
    requires IsSubsequence(a, b)
    ensures multiset(a) <= multiset(b)
    decreases |b|
  {
    if a != [] {
      assert b == [b[0]] + b[1..];
      if a[0] == b[0] && IsSubsequence(a[1..], b[1..]) {
        SubsequenceMultiset(a[1..], b[1..]);
        assert a == [a[0]] + a[1..];
      } else {
        SubsequenceMultiset(a, b[1..]);
      }
    }
  }

  /** A subsequence holding every copy of each element that passes and no
      copy of one that fails is the filter itself. */
  lemma {:induction false} FilterUnique<T>(xs: seq<T>, keep: T -> bool, a: seq<T>)
    requires IsSubsequence(a, xs)
    requires forall x :: multiset(a)[x] == if keep(x) then multiset(xs)[x] else 0
    ensures a == Filter(xs, keep)
    decreases |xs|
  {
    if xs == [] {
      assert a == [];
    } else {
      var h, t := xs[0], xs[1..];
      assert xs == [h] + t;
      assert multiset(xs) == multiset{h} + multiset(t);
      if a != [] && a[0] == h && IsSubsequence(a[1..], t) {
        assert a == [h] + a[1..];
        assert multiset(a) == multiset{h} + multiset(a[1..]);
        assert keep(h);
        FilterUnique(t, keep, a[1..]);
      } else {
        assert IsSubsequence(a, t);
        SubsequenceMultiset(a, t);
        assert !keep(h);
        FilterUnique(t, keep, a);
      }
    }
  }

  /** Filtering keeps everything when every element passes. */
  lemma {:induction false} FilterAll<T>(xs: seq<T>, keep: T -> bool)
    requires forall k :: 0 <= k < |xs| ==> keep(xs[k])
    ensures Filter(xs, keep) == xs
    decreases |xs|
  {
    if xs != [] {
      FilterAll(xs[1..], keep);
    }
  }

  /** Filtering distributes over concatenation. */
  lemma {:induction false} FilterAppend<T>(xs: seq<T>, ys: seq<T>, keep: T -> bool)
    ensures Filter(xs + ys, keep) == Filter(xs, keep) + Filter(ys, keep)
    decreases |xs|
  {
    if xs == [] {
      assert xs + ys == ys;
    } else {
      assert (xs + ys)[1..] == xs[1..] + ys;
      FilterAppend(xs[1..], ys, keep);
    }
  }

  /** An element survives a filter exactly when it is in the sequence and
      passes. */
  lemma FilterMembership<T>(xs: seq<T>, keep: T -> bool, x: T)
    ensures x in Filter(xs, keep) <==> x in xs && keep(x)
  {
    if x in Filter(xs, keep) {
      SubsequenceMembers(Filter(xs, keep), xs);
    }
  }

  /** Filtering twice, where the second test implies the first, is filtering
      once by the second. */
  lemma {:induction false} FilterFilter<T>(xs: seq<T>, first: T -> bool, second: T -> bool)
    requires forall x :: second(x) ==> first(x)
    ensures Filter(Filter(xs, first), second) == Filter(xs, second)
    decreases |xs|
  {
    if xs != [] {
      FilterFilter(xs[1..], first, second);
    }
  }

  /** Two tests that agree on every element filter alike. */
  lemma {:induction false} FilterAgrees<T>(xs: seq<T>, first: T -> bool, second: T -> bool)
    requires forall k :: 0 <= k < |xs| ==> (first(xs[k]) <==> second(xs[k]))
    ensures Filter(xs, first) == Filter(xs, second)
    decreases |xs|
  {
    if xs != [] {
      assert forall k :: 1 <= k < |xs| ==> xs[k] == xs[1..][k - 1];
      FilterAgrees(xs[1..], first, second);
    }
  }

  /** Filtering is idempotent. */
  lemma FilterIdempotent<T>(xs: seq<T>, keep: T -> bool)
    ensures Filter(Filter(xs, keep), keep) == Filter(xs, keep)
  {
    FilterFilter(xs, keep, keep);
  }

  /** `xs.map(x => select(x) ? change(x) : x)`: the selected elements
      changed in place, the others untouched. */
  function MapWhere<T>(xs: seq<T>, select: T -> bool, change: T -> T): (r: seq<T>)
    ensures |r| == |xs|
    ensures forall k :: 0 <= k < |xs| && select(xs[k]) ==> r[k] == change(xs[k])
    ensures forall k :: 0 <= k < |xs| && !select(xs[k]) ==> r[k] == xs[k]
  {
    seq(|xs|, k requires 0 <= k < |xs| => if select(xs[k]) then change(xs[k]) else xs[k])
  }

  /** `xs.findIndex(p)` as an option: the first position whose element passes. */
  function FindFirst<T>(xs: seq<T>, p: T -> bool): (r: Option<nat>)
    ensures r.Some? ==> r.value < |xs| && p(xs[r.value])
    ensures r.Some? ==> forall k :: 0 <= k < r.value ==> !p(xs[k])
    ensures r.None? <==> forall k :: 0 <= k < |xs| ==> !p(xs[k])
    decreases |xs|
  {
    if xs == [] then None
    else if p(xs[0]) then Some(0)
    else
      match FindFirst(xs[1..], p)
      case None =>
        assert forall k :: 1 <= k < |xs| ==> xs[k] == xs[1..][k - 1];
        None
      case Some(i) =>
        assert forall k :: 1 <= k <= i ==> xs[k] == xs[1..][k - 1];
        Some(i + 1)
  }

  /** A common prefix and a common suffix cancel. */
  lemma CancelAround<T>(p: seq<T>, a: seq<T>, b: seq<T>, t: seq<T>)
    requires p + a + t == p + b + t
    ensures a == b
  {
    var x, y := p + a + t, p + b + t;
    assert |a| == |b|;
    assert a == x[|p|..|p| + |a|] && b == y[|p|..|p| + |b|];
  }
}
