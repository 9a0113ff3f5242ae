/** Sums, index sequences and permutations over sequences of reals. */
module Sequences {

  lemma MulDivCancel(n: real, x: real)
    requires n != 0.0
    ensures n * (x / n) == x
  {
  }

  function Max(a: real, b: real): real {
    if a >= b then a else b
  }

  function Abs(x: real): real {
    if x < 0.0 then -x else x
  }

  /** numpy's np.sum over a one-dimensional array. */
  function Sum(s: seq<real>): real {
    if s == [] then 0.0 else s[0] + Sum(s[1..])
  }

  lemma {:induction false} SumConcat(a: seq<real>, b: seq<real>)
    ensures Sum(a + b) == Sum(a) + Sum(b)
  {
    if a == [] {
      assert a + b == b;
    } else {
      assert (a + b)[1..] == a[1..] + b;
      SumConcat(a[1..], b);
    }
  }

  lemma MultisetCancel<T>(x: multiset<T>, y: multiset<T>, v: T)
    requires x + multiset{v} == y + multiset{v}
    ensures x == y
  {
    forall e ensures x[e] == y[e] {
      assert (x + multiset{v})[e] == (y + multiset{v})[e];
    }
  }

  lemma MultisetSplitAt<T>(b: seq<T>, k: nat)
    requires k < |b|
    ensures multiset(b) == multiset(b[..k] + b[k + 1..]) + multiset{b[k]}
  {
    var left, right := b[..k], b[k + 1..];
    assert b == left + ([b[k]] + right);
    assert multiset([b[k]] + right) == multiset{b[k]} + multiset(right);
  }

  /** Removing the first element of `a` and a matching element of `b` keeps the two multisets equal. */
  lemma MatchHead<T>(a: seq<T>, b: seq<T>) returns (k: nat)
    requires a != [] && multiset(a) == multiset(b)
    ensures k < |b| && b[k] == a[0]
    ensures multiset(a[1..]) == multiset(b[..k] + b[k + 1..])
  {
    var v := a[0];
    assert v in multiset(a);
    assert v in b;
    k :| 0 <= k < |b| && b[k] == v;
    MultisetSplitAt(b, k);
    MultisetSplitAt(a, 0);
    assert a[..0] + a[1..] == a[1..];
    MultisetCancel(multiset(a[1..]), multiset(b[..k] + b[k + 1..]), v);
  }

  /** Sums do not depend on the order of the summands. */
  lemma {:induction false} SumPermutation(a: seq<real>, b: seq<real>)
    requires multiset(a) == multiset(b)
    ensures Sum(a) == Sum(b)
    decreases |a|
  {
    if a == [] {
      assert |b| == |multiset(b)| == 0;
    } else {
      var k := MatchHead(a, b);
      var rest := b[..k] + b[k + 1..];
      assert b == b[..k] + ([b[k]] + b[k + 1..]);
      SumPermutation(a[1..], rest);
      SumConcat(b[..k], [b[k]] + b[k + 1..]);
      SumConcat([b[k]], b[k + 1..]);
      SumConcat(b[..k], b[k + 1..]);
    }
  }

  /** The sum of non-negative numbers is non-negative and bounds each of them. */
  lemma {:induction false} SumNonNegative(s: seq<real>)
    requires forall k :: 0 <= k < |s| ==> s[k] >= 0.0
    ensures Sum(s) >= 0.0
    ensures forall k :: 0 <= k < |s| ==> s[k] <= Sum(s)
  {
    if s != [] {
      SumNonNegative(s[1..]);
      forall k | 1 <= k < |s| ensures s[k] <= Sum(s) {
        assert s[k] == s[1..][k - 1];
      }
    }
  }

  /** n copies of x add up to n * x. */
  lemma {:induction false} SumOfCopies(x: real, s: seq<real>)
    requires forall k :: 0 <= k < |s| ==> s[k] == x
    ensures Sum(s) == |s| as real * x
  {
    if s != [] {
      SumOfCopies(x, s[1..]);
    }
  }

  /** SumOfCopies with the count given separately, for callers that know it under another name. */
  lemma SumOfCounted(x: real, s: seq<real>, n: nat)
    requires |s| == n
    requires forall k :: 0 <= k < |s| ==> s[k] == x
    ensures Sum(s) == n as real * x
  {
    SumOfCopies(x, s);
  }

  /**
   * Summands of at most x add up to at most n * x, and to strictly less
   * when one of them is below x.
   */
  lemma {:induction false} SumBelowCopies(s: seq<real>, x: real)
    requires forall k :: 0 <= k < |s| ==> s[k] <= x
    ensures Sum(s) <= |s| as real * x
    ensures (exists b :: 0 <= b < |s| && s[b] < x) ==> Sum(s) < |s| as real * x
  {
    if s != [] {
      var rest := s[1..];
      assert forall k :: 0 <= k < |rest| ==> rest[k] == s[k + 1];
      SumBelowCopies(rest, x);
      assert |s| as real * x == x + |rest| as real * x;
      if b :| 0 <= b < |s| && s[b] < x {
        if b > 0 {
          assert rest[b - 1] < x;
        }
      }
    }
  }

  /** Non-negative summands with a zero sum are all zero. */
  lemma ZeroSumOfNonNegative(s: seq<real>)
    requires forall k :: 0 <= k < |s| ==> s[k] >= 0.0
    requires Sum(s) == 0.0
    ensures forall k :: 0 <= k < |s| ==> s[k] == 0.0
  {
    SumNonNegative(s);
  }

  /** Dividing every summand by t divides the sum by t. */
  lemma {:induction false} SumDivided(s: seq<real>, t: real, r: seq<real>)
    requires t != 0.0 && |r| == |s|
    requires forall k :: 0 <= k < |s| ==> r[k] == s[k] / t
    ensures Sum(r) == Sum(s) / t
  {
    if s != [] {
      SumDivided(s[1..], t, r[1..]);
      assert r[0] + Sum(r[1..]) == s[0] / t + Sum(s[1..]) / t;
    }
  }

  /** np.sum over a whole two-dimensional array: the sum of the row sums. */
  function Total(m: seq<seq<real>>): real {
    if m == [] then 0.0 else Sum(m[0]) + Total(m[1..])
  }

  /** Every row of `m` has `cols` entries. */
  ghost predicate IsMatrix(m: seq<seq<real>>, rows: nat, cols: nat) {
    |m| == rows && forall i :: 0 <= i < |m| ==> |m[i]| == cols
  }

  /** The indices 0, 1, ..., n - 1 in order. */
  function Range(n: nat): seq<nat> {
    seq(n, i => i)
  }

  /** `p` is a rearrangement of 0, ..., n - 1 (what np.argsort and np.random.permutation return). */
  ghost predicate IsPermutation(p: seq<nat>, n: nat) {
    multiset(p) == multiset(Range(n))
  }

  /** Fancy indexing `s[p]`: element i of the result is s[p[i]]. */
  function Gather<T>(s: seq<T>, p: seq<nat>): (r: seq<T>)
    requires forall i :: 0 <= i < |p| ==> p[i] < |s|
    ensures |r| == |p|
  {
    seq(|p|, i requires 0 <= i < |p| => s[p[i]])
  }

  lemma {:induction false} RangeCount(n: nat, v: nat)
    ensures multiset(Range(n))[v] == if v < n then 1 else 0
  {
    if n > 0 {
      assert Range(n) == Range(n - 1) + [n - 1];
      RangeCount(n - 1, v);
    }
  }

  /** A permutation of 0, ..., n - 1 has length n, stays below n, hits every index below n and repeats none. */
  lemma PermutationFacts(p: seq<nat>, n: nat)
    requires IsPermutation(p, n)
    ensures |p| == n
    ensures forall i :: 0 <= i < |p| ==> p[i] < n
    ensures forall j :: 0 <= j < n ==> j in p
    ensures forall a, b :: 0 <= a < |p| && 0 <= b < |p| && a != b ==> p[a] != p[b]
  {
    assert |p| == |multiset(p)| == |multiset(Range(n))| == |Range(n)|;
    forall i | 0 <= i < |p| ensures p[i] < n {
      PermutationBelow(p, n, i);
    }
    forall j | 0 <= j < n ensures j in p {
      RangeCount(n, j);
      assert j in multiset(p);
    }
    forall a, b | 0 <= a < b < |p| ensures p[a] != p[b] {
      PermutationDistinct(p, n, a, b);
    }
  }

  lemma PermutationBelow(p: seq<nat>, n: nat, i: nat)
    requires IsPermutation(p, n) && i < |p|
    ensures p[i] < n
  {
    assert p[i] in multiset(p);
    RangeCount(n, p[i]);
  }

  lemma PermutationDistinct(p: seq<nat>, n: nat, a: nat, b: nat)
    requires IsPermutation(p, n) && a < b < |p|
    ensures p[a] != p[b]
  {
    if p[a] == p[b] {
      var v := p[a];
      assert p == p[..a] + [v] + (p[a + 1..b] + [v] + p[b + 1..]);
      assert multiset(p)[v] >= 2 by {
        calc >= {
          multiset(p)[v];
          multiset([v] + (p[a + 1..b] + [v] + p[b + 1..]))[v];
          1 + multiset(p[a + 1..b] + [v] + p[b + 1..])[v];
          1 + multiset([v])[v];
        }
      }
      RangeCount(n, v);
    }
  }

  lemma GatherConcat<T>(s: seq<T>, a: seq<nat>, b: seq<nat>)
    requires forall i :: 0 <= i < |a| ==> a[i] < |s|
    requires forall i :: 0 <= i < |b| ==> b[i] < |s|
    ensures Gather(s, a + b) == Gather(s, a) + Gather(s, b)
  {
  }

  /** Gathering through two rearrangements of the same indices yields rearrangements of each other. */
  lemma GatherAt<T>(s: seq<T>, b: seq<nat>, k: nat)
    requires forall i :: 0 <= i < |b| ==> b[i] < |s|
    requires k < |b|
    ensures multiset(Gather(s, b)) == multiset{s[b[k]]} + multiset(Gather(s, b[..k] + b[k + 1..]))
  {
    var left, right := b[..k], b[k + 1..];
    assert b == left + ([b[k]] + right);
    GatherConcat(s, left, [b[k]] + right);
    GatherConcat(s, [b[k]], right);
    GatherConcat(s, left, right);
  }

  /** Gathers through a and b agree when their heads match and the rest of a gathers like b without b[k]. */
  lemma GatherMatchedHead<T>(s: seq<T>, a: seq<nat>, b: seq<nat>, k: nat)
    requires forall i :: 0 <= i < |a| ==> a[i] < |s|
    requires forall i :: 0 <= i < |b| ==> b[i] < |s|
    requires a != [] && k < |b| && b[k] == a[0]
    requires multiset(Gather(s, a[1..])) == multiset(Gather(s, b[..k] + b[k + 1..]))
    ensures multiset(Gather(s, a)) == multiset(Gather(s, b))
  {
    assert a == [a[0]] + a[1..];
    GatherConcat(s, [a[0]], a[1..]);
    GatherAt(s, b, k);
  }

  lemma {:induction false} GatherSameIndices<T>(s: seq<T>, a: seq<nat>, b: seq<nat>)
    requires forall i :: 0 <= i < |a| ==> a[i] < |s|
    requires multiset(a) == multiset(b)
    ensures forall i :: 0 <= i < |b| ==> b[i] < |s|
    ensures multiset(Gather(s, a)) == multiset(Gather(s, b))
    decreases |a|
  {
    forall i | 0 <= i < |b| ensures b[i] < |s| {
      assert b[i] in multiset(a);
    }
    if a == [] {
      assert |b| == |multiset(b)| == 0;
    } else {
      var k := MatchHead(a, b);
      GatherSameIndices(s, a[1..], b[..k] + b[k + 1..]);
      GatherMatchedHead(s, a, b, k);
    }
  }

  /** Indexing by a permutation rearranges the elements: the multiset is preserved. */
  lemma GatherPermutation<T>(s: seq<T>, p: seq<nat>)
    requires IsPermutation(p, |s|)
    ensures forall i :: 0 <= i < |p| ==> p[i] < |s|
    ensures multiset(Gather(s, p)) == multiset(s)
  {
    PermutationFacts(p, |s|);
    GatherSameIndices(s, p, Range(|s|));
    assert Gather(s, Range(|s|)) == s;
  }
}
