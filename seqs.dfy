/** The list operations the application is written with: `filter`, a `reduce`
    that adds up a number per element, and `slice`. */
module Seqs {

  /** `s.filter(p)`. */
  function Filter<T(!new)>(s: seq<T>, p: T -> bool): (r: seq<T>)
    ensures |r| <= |s|
    ensures forall x :: x in r <==> x in s && p(x)
  {
    if |s| == 0 then []
    else Filter(s[..|s| - 1], p) + (if p(s[|s| - 1]) then [s[|s| - 1]] else [])
  }

  lemma {:induction false} FilterAppend<T(!new)>(a: seq<T>, b: seq<T>, p: T -> bool)
    ensures Filter(a + b, p) == Filter(a, p) + Filter(b, p)
    decreases |b|
  {
    if |b| == 0 {
      assert a + b == a;
    } else {
      assert (a + b)[..|a + b| - 1] == a + b[..|b| - 1];
      FilterAppend(a, b[..|b| - 1], p);
    }
  }

  /** Filtering twice keeps what both tests keep. */
  lemma {:induction false} FilterFilter<T(!new)>(s: seq<T>, p: T -> bool, q: T -> bool, both: T -> bool)
    requires forall x :: both(x) == (p(x) && q(x))
    ensures Filter(Filter(s, p), q) == Filter(s, both)
    decreases |s|
  {
    if |s| > 0 {
      var init := s[..|s| - 1];
      var x := s[|s| - 1];
      FilterFilter(init, p, q, both);
      FilterAppend(Filter(init, p), if p(x) then [x] else [], q);
      assert Filter(if p(x) then [x] else [], q) == if both(x) then [x] else [] by {
        if p(x) {
          assert Filter([x], q) == Filter([], q) + (if q(x) then [x] else []);
        }
      }
    }
  }

  /** A test and its negation split a list into two parts that together
      hold every element exactly as often as the list does. */
  lemma {:induction false} FilterPartition<T(!new)>(s: seq<T>, p: T -> bool, q: T -> bool)
    requires forall x :: q(x) == !p(x)
    ensures multiset(Filter(s, p)) + multiset(Filter(s, q)) == multiset(s)
    decreases |s|
  {
    if |s| > 0 {
      var init := s[..|s| - 1];
      var x := s[|s| - 1];
      FilterPartition(init, p, q);
      assert s == init + [x];
      PartitionStep(init, x, Filter(init, p), Filter(init, q), if p(x) then [x] else [], if q(x) then [x] else []);
    }
  }

  /** One more element goes to exactly one side of a partition. */
  lemma PartitionStep<T>(init: seq<T>, x: T, fp: seq<T>, fq: seq<T>, ep: seq<T>, eq: seq<T>)
    requires multiset(fp) + multiset(fq) == multiset(init)
    requires (ep == [x] && eq == []) || (ep == [] && eq == [x])
    ensures multiset(fp + ep) + multiset(fq + eq) == multiset(init + [x])
  {
  }

  /** `s.reduce((sum, x) => sum + f(x), 0)`. */
  function Sum<T>(s: seq<T>, f: T -> real): real {
    if |s| == 0 then 0.0 else Sum(s[..|s| - 1], f) + f(s[|s| - 1])
  }

  lemma {:induction false} SumAppend<T>(a: seq<T>, b: seq<T>, f: T -> real)
    ensures Sum(a + b, f) == Sum(a, f) + Sum(b, f)
    decreases |b|
  {
    if |b| == 0 {
      assert a + b == a;
    } else {
      assert (a + b)[..|a + b| - 1] == a + b[..|b| - 1];
      SumAppend(a, b[..|b| - 1], f);
    }
  }

  /** Summing the filtered list is summing `f` where `p` holds and 0 elsewhere. */
  lemma {:induction false} SumFilter<T(!new)>(s: seq<T>, p: T -> bool, f: T -> real, g: T -> real)
    requires forall x :: g(x) == if p(x) then f(x) else 0.0
    ensures Sum(Filter(s, p), f) == Sum(s, g)
    decreases |s|
  {
    if |s| > 0 {
      var init := s[..|s| - 1];
      var x := s[|s| - 1];
      SumFilter(init, p, f, g);
      SumAppend(Filter(init, p), if p(x) then [x] else [], f);
      if p(x) {
        assert Sum([x], f) == Sum([], f) + f(x);
      }
    }
  }

  /** A sum split by a test and its negation adds up to the whole sum. */
  lemma SumSplit<T(!new)>(s: seq<T>, p: T -> bool, q: T -> bool, f: T -> real)
    requires forall x :: q(x) == !p(x)
    ensures Sum(Filter(s, p), f) + Sum(Filter(s, q), f) == Sum(s, f)
  {
    var gp := x => if p(x) then f(x) else 0.0;
    var gq := x => if q(x) then f(x) else 0.0;
    SumFilter(s, p, f, gp);
    SumFilter(s, q, f, gq);
    SumPointwise(s, gp, gq, f);
  }

  lemma {:induction false} SumPointwise<T>(s: seq<T>, g: T -> real, h: T -> real, f: T -> real)
    requires forall x :: g(x) + h(x) == f(x)
    ensures Sum(s, g) + Sum(s, h) == Sum(s, f)
    decreases |s|
  {
    if |s| > 0 {
      SumPointwise(s[..|s| - 1], g, h, f);
    }
  }

  /** Removing element `j` takes its term out of the sum. */
  lemma SumRemove<T>(s: seq<T>, j: nat, f: T -> real)
    requires j < |s|
    ensures Sum(s, f) == Sum(s[..j] + s[j + 1..], f) + f(s[j])
  {
    var front, back := s[..j], s[j + 1..];
    SplitAt(s, j);
    SumAppend(front + [s[j]], back, f);
    assert (front + [s[j]])[..|front|] == front;
    SumAppend(front, back, f);
  }

  /** A list is its part before `j`, its element `j` and its part after. */
  lemma SplitAt<T>(s: seq<T>, j: nat)
    requires j < |s|
    ensures s == (s[..j] + [s[j]]) + s[j + 1..]
  {
    var r := (s[..j] + [s[j]]) + s[j + 1..];
    assert |r| == |s|;
    forall i | 0 <= i < |s|
      ensures r[i] == s[i]
    {
    }
  }

  /** The sum does not depend on the order of the elements. */
  lemma {:induction false} SumPermutation<T>(a: seq<T>, b: seq<T>, f: T -> real)
    requires multiset(a) == multiset(b)
    ensures Sum(a, f) == Sum(b, f)
    decreases |a|
  {
    assert |a| == |multiset(a)| == |multiset(b)| == |b|;
    if |a| > 0 {
      var x := a[|a| - 1];
      var init := a[..|a| - 1];
      assert a == init + [x];
      assert x in multiset(b);
      var j :| 0 <= j < |b| && b[j] == x;
      var rest := b[..j] + b[j + 1..];
      assert b == b[..j] + [x] + b[j + 1..];
      assert multiset(b) == multiset(rest) + multiset{x};
      assert multiset(a) == multiset(init) + multiset{x};
      assert multiset(init) == multiset(a) - multiset{x};
      assert multiset(rest) == multiset(b) - multiset{x};
      SumPermutation(init, rest, f);
      SumRemove(b, j, f);
    }
  }

  /** Sums of two functions that agree everywhere are equal. */
  lemma {:induction false} SumCongruent<T>(s: seq<T>, f: T -> real, g: T -> real)
    requires forall x :: f(x) == g(x)
    ensures Sum(s, f) == Sum(s, g)
    decreases |s|
  {
    if |s| > 0 {
      SumCongruent(s[..|s| - 1], f, g);
    }
  }

  /** Summing the negated function gives the negated sum. */
  lemma {:induction false} SumNegated<T>(s: seq<T>, f: T -> real, g: T -> real)
    requires forall x :: g(x) == -f(x)
    ensures Sum(s, g) == -Sum(s, f)
    decreases |s|
  {
    if |s| > 0 {
      SumNegated(s[..|s| - 1], f, g);
    }
  }

  /** Filters with tests that agree everywhere keep the same elements. */
  lemma {:induction false} FilterCongruent<T(!new)>(s: seq<T>, p: T -> bool, q: T -> bool)
    requires forall x :: p(x) == q(x)
    ensures Filter(s, p) == Filter(s, q)
    decreases |s|
  {
    if |s| > 0 {
      FilterCongruent(s[..|s| - 1], p, q);
    }
  }

  /** The filtered list holds each element that passes as often as the list
      does, and no other. */
  lemma {:induction false} FilterMultiplicity<T(!new)>(s: seq<T>, p: T -> bool, y: T)
    ensures multiset(Filter(s, p))[y] == if p(y) then multiset(s)[y] else 0
    decreases |s|
  {
    if |s| > 0 {
      var init := s[..|s| - 1];
      var x := s[|s| - 1];
      FilterMultiplicity(init, p, y);
      assert s == init + [x];
      assert multiset(s) == multiset(init) + multiset{x};
      var px := if p(x) then [x] else [];
      assert multiset(Filter(s, p)) == multiset(Filter(init, p)) + multiset(px);
    }
  }

  /** Filtering a permutation gives a permutation of the filtered list. */
  lemma FilterPermutation<T(!new)>(a: seq<T>, b: seq<T>, p: T -> bool)
    requires multiset(a) == multiset(b)
    ensures multiset(Filter(a, p)) == multiset(Filter(b, p))
  {
    forall y
      ensures multiset(Filter(a, p))[y] == multiset(Filter(b, p))[y]
    {
      FilterMultiplicity(a, p, y);
      FilterMultiplicity(b, p, y);
    }
  }

  /** Lists with the same elements, counted, have the same members. */
  lemma SameMembers<T>(a: seq<T>, b: seq<T>)
    requires multiset(a) == multiset(b)
    ensures forall x :: x in a <==> x in b
  {
    forall x
      ensures x in a <==> x in b
    {
      assert x in a <==> x in multiset(a);
      assert x in b <==> x in multiset(b);
    }
  }

  /** No element occurs twice. */
  predicate Distinct<T(==)>(s: seq<T>) {
    forall i, j :: 0 <= i < j < |s| ==> s[i] != s[j]
  }

  /** Filtering with a test every element passes changes nothing. */
  lemma {:induction false} FilterAll<T(!new)>(s: seq<T>, p: T -> bool)
    requires forall x :: x in s ==> p(x)
    ensures Filter(s, p) == s
    decreases |s|
  {
    if |s| > 0 {
      FilterAll(s[..|s| - 1], p);
      assert s[|s| - 1] in s;
      assert s[..|s| - 1] + [s[|s| - 1]] == s;
    }
  }

  /** Filtering by a predicate no element satisfies leaves nothing. */
  lemma {:induction false} FilterNone<T(!new)>(s: seq<T>, p: T -> bool)
    requires forall x :: x in s ==> !p(x)
    ensures Filter(s, p) == []
    decreases |s|
  {
    if |s| > 0 {
      assert s[|s| - 1] in s;
      assert forall x :: x in s[..|s| - 1] ==> x in s;
      FilterNone(s[..|s| - 1], p);
    }
  }

  /** Filtering keeps everything when every element passes, and nothing
      when none does. */
  lemma FilterExtremes<T(!new)>(s: seq<T>, p: T -> bool)
    ensures (forall x :: x in s ==> p(x)) ==> Filter(s, p) == s
    ensures (forall x :: x in s ==> !p(x)) ==> Filter(s, p) == []
  {
    if forall x :: x in s ==> p(x) {
      FilterAll(s, p);
    }
    if forall x :: x in s ==> !p(x) {
      FilterNone(s, p);
    }
  }

  /** The prefix one element longer is the prefix plus that element. */
  lemma PrefixGrow<T>(s: seq<T>, i: int)
    requires 0 <= i < |s|
    ensures s[..i + 1] == s[..i] + [s[i]]
    ensures s[..i + 1][..i] == s[..i] && s[..i + 1][i] == s[i]
  {
  }

  /** Extending a prefix that follows a fixed head by one more element. */
  lemma HeadPrefixGrow<T>(h: seq<T>, s: seq<T>, i: int)
    requires 0 <= i < |s|
    ensures h + s[..i + 1] == (h + s[..i]) + [s[i]]
  {
    PrefixGrow(s, i);
  }

  /** The lists `f` gives for the elements of `xs`, concatenated in order. */
  function ConcatMap<A, T>(xs: seq<A>, f: A --> seq<T>): seq<T>
    requires forall i :: 0 <= i < |xs| ==> f.requires(xs[i])
  {
    if |xs| == 0 then []
    else ConcatMap(xs[..|xs| - 1], f) + f(xs[|xs| - 1])
  }

  /** An element is in the concatenation exactly when one of the lists holds it. */
  lemma {:induction false} ConcatMapMembers<A, T>(xs: seq<A>, f: A --> seq<T>, x: T)
    requires forall i :: 0 <= i < |xs| ==> f.requires(xs[i])
    ensures x in ConcatMap(xs, f) <==> exists i :: 0 <= i < |xs| && x in f(xs[i])
    decreases |xs|
  {
    if |xs| > 0 {
      var init := xs[..|xs| - 1];
      ConcatMapMembers(init, f, x);
      if exists i :: 0 <= i < |init| && x in f(init[i]) {
        var i :| 0 <= i < |init| && x in f(init[i]);
        assert xs[i] == init[i];
      }
      if exists i :: 0 <= i < |xs| && x in f(xs[i]) {
        var i :| 0 <= i < |xs| && x in f(xs[i]);
        if i < |xs| - 1 {
          assert xs[i] == init[i];
        }
      }
    }
  }

  /** Appending an element not yet present keeps a list free of repeats. */
  lemma DistinctAppend<T>(s: seq<T>, x: T)
    requires Distinct(s) && x !in s
    ensures Distinct(s + [x])
  {
    forall i, j | 0 <= i < j < |s + [x]|
      ensures (s + [x])[i] != (s + [x])[j]
    {
      if j == |s| {
        assert (s + [x])[i] == s[i];
      }
    }
  }

  /** Filtering keeps a list free of repeats. */
  lemma {:induction false} FilterDistinct<T(!new)>(s: seq<T>, p: T -> bool)
    requires Distinct(s)
    ensures Distinct(Filter(s, p))
    decreases |s|
  {
    if |s| > 0 {
      var init := s[..|s| - 1];
      var x := s[|s| - 1];
      FilterDistinct(init, p);
      if p(x) {
        assert x !in init by {
          forall i | 0 <= i < |init|
            ensures init[i] != x
          {
            assert init[i] == s[i];
          }
        }
        DistinctAppend(Filter(init, p), x);
      } else {
        assert Filter(s, p) == Filter(init, p) + [];
      }
    }
  }

  /** The number of elements that pass `p`. */
  function Count<T(!new)>(s: seq<T>, p: T -> bool): nat {
    |Filter(s, p)|
  }

  /** `s.slice(0, n)` for n >= 0: the first `n` elements, or all of them. */
  function Take<T>(s: seq<T>, n: nat): (r: seq<T>)
    ensures |r| == if n < |s| then n else |s|
    ensures r == s[..|r|]
  {
    if n < |s| then s[..n] else s
  }
}
