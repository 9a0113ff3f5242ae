/**
 * np.argsort and np.sort on real keys, and the scatter `out[order] = values`
 * that undoes a gather through a permutation.
 */
module Sorting {
  import opened Sequences

  /** The indices in `p` are valid for `keys` and list the keys in ascending order. */
  ghost predicate SortedBy(keys: seq<real>, p: seq<nat>) {
    && (forall t :: 0 <= t < |p| ==> p[t] < |keys|)
    && (forall a, b :: 0 <= a < b < |p| ==> keys[p[a]] <= keys[p[b]])
  }

  ghost predicate Ascending(s: seq<real>) {
    forall a, b :: 0 <= a < b < |s| ==> s[a] <= s[b]
  }

  lemma InsertKeepsOrder(keys: seq<real>, i: nat, head: nat, rest: seq<nat>, tail: seq<nat>)
    requires i < |keys| && head < |keys|
    requires keys[head] <= keys[i]
    requires forall t :: 0 <= t < |tail| ==> tail[t] < |keys| && keys[head] <= keys[tail[t]]
    requires SortedBy(keys, rest)
    requires multiset(rest) == multiset(tail) + multiset{i}
    ensures SortedBy(keys, [head] + rest)
  {
    forall t | 0 <= t < |rest| ensures keys[head] <= keys[rest[t]] {
      assert rest[t] in multiset(rest);
      if rest[t] != i {
        assert rest[t] in multiset(tail);
      }
    }
  }

  /** Inserts index i into the key-sorted index list p, after every index whose key is not larger. */
  function InsertIndex(keys: seq<real>, i: nat, p: seq<nat>): (r: seq<nat>)
    requires i < |keys|
    requires SortedBy(keys, p)
    ensures |r| == |p| + 1
    ensures multiset(r) == multiset(p) + multiset{i}
    ensures SortedBy(keys, r)
  {
    if p == [] then [i]
    else if keys[i] < keys[p[0]] then [i] + p
    else
      var rest := InsertIndex(keys, i, p[1..]);
      assert p == [p[0]] + p[1..];
      InsertKeepsOrder(keys, i, p[0], rest, p[1..]);
      [p[0]] + rest
  }

  /** Sorts the indices 0, ..., n - 1 by key. */
  function ArgSortPrefix(keys: seq<real>, n: nat): (r: seq<nat>)
    requires n <= |keys|
    ensures |r| == n
    ensures multiset(r) == multiset(Range(n))
    ensures SortedBy(keys, r)
  {
    if n == 0 then []
    else
      assert Range(n) == Range(n - 1) + [n - 1];
      InsertIndex(keys, n - 1, ArgSortPrefix(keys, n - 1))
  }

  /**
   * np.argsort: a permutation of the indices that lists the keys in ascending
   * order. Ties keep index order here; numpy's default quicksort leaves their
   * order unspecified.
   */
  function ArgSort(keys: seq<real>): (p: seq<nat>)
    ensures |p| == |keys|
    ensures IsPermutation(p, |keys|)
    ensures SortedBy(keys, p)
  {
    ArgSortPrefix(keys, |keys|)
  }

  /** np.sort: the values in ascending order, as a rearrangement of the input. */
  function Sort(v: seq<real>): (r: seq<real>)
    ensures |r| == |v|
    ensures Ascending(r)
    ensures multiset(r) == multiset(v)
  {
    var p := ArgSort(v);
    GatherPermutation(v, p);
    Gather(v, p)
  }

  /** The position at which j occurs in `order`. */
  function PositionOf(order: seq<nat>, j: nat): (k: nat)
    requires j in order
    ensures k < |order| && order[k] == j
  {
    if order[0] == j then 0 else 1 + PositionOf(order[1..], j)
  }

  /**
   * The numpy assignment `out[order] = values` into a fresh array, for a
   * permutation `order`: value k lands at position order[k].
   */
  function Unsort(values: seq<real>, order: seq<nat>): (r: seq<real>)
    requires IsPermutation(order, |values|)
    ensures |r| == |values| == |order|
    ensures forall k :: 0 <= k < |order| ==> order[k] < |r| && r[order[k]] == values[k]
    ensures multiset(r) == multiset(values)
  {
    PermutationFacts(order, |values|);
    var r := seq(|values|, j requires 0 <= j < |values| => values[PositionOf(order, j)]);
    assert forall k :: 0 <= k < |order| ==> PositionOf(order, order[k]) == k;
    GatherPermutation(r, order);
    assert Gather(r, order) == values;
    r
  }
}
