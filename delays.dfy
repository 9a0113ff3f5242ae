/**
 * delay (delay.py): N path delays, sorted and shifted so that the first path
 * arrives at time 0. The logarithms ln(Z_n) of the uniform draws are an input.
 */
module Delays {
  import opened Wrappers
  import opened Sequences
  import opened Sorting

  /** tau'_n = -r_DS * sigma_DS * ln(Z_n). */
  function RawDelays(rDs: real, sigmaDs: real, logDraws: seq<real>): (raw: seq<real>)
    ensures |raw| == |logDraws|
  {
    seq(|logDraws|, i requires 0 <= i < |logDraws| => -rDs * sigmaDs * logDraws[i])
  }

  /** Every entry of s minus c. */
  function Shift(s: seq<real>, c: real): (r: seq<real>)
    ensures |r| == |s|
    ensures forall i :: 0 <= i < |s| ==> r[i] + c == s[i]
  {
    seq(|s|, i requires 0 <= i < |s| => s[i] - c)
  }

  /**
   * delay: sort the raw delays ascending and subtract the first from all.
   * With no paths, reading the first delay raises IndexError.
   */
  function Delay(rDs: real, sigmaDs: real, logDraws: seq<real>): (r: Result<seq<real>>)
    ensures r.Failure? <==> |logDraws| == 0
    ensures r.Failure? ==> r.fault == IndexOutOfRange
    ensures r.Success? ==> |r.value| == |logDraws|
    ensures r.Success? ==> Ascending(r.value)
    ensures r.Success? ==> r.value[0] == 0.0 && forall i :: 0 <= i < |r.value| ==> r.value[i] >= 0.0
  {
    if |logDraws| == 0 then Failure(IndexOutOfRange)
    else
      var sorted := Sort(RawDelays(rDs, sigmaDs, logDraws));
      Success(Shift(sorted, sorted[0]))
  }

  /** Shifting commutes with reading through indices. */
  lemma ShiftGather(s: seq<real>, p: seq<nat>, c: real)
    requires forall i :: 0 <= i < |p| ==> p[i] < |s|
    ensures Shift(Gather(s, p), c) == Gather(Shift(s, c), p)
  {
  }

  /** The smallest entry of an ascending rearrangement of s is the minimum of s. */
  lemma SortedHeadIsMinimum(s: seq<real>)
    requires |s| > 0
    ensures Sort(s)[0] in s
    ensures forall i :: 0 <= i < |s| ==> Sort(s)[0] <= s[i]
  {
    var sorted := Sort(s);
    assert sorted[0] in multiset(s);
    forall i | 0 <= i < |s| ensures sorted[0] <= s[i] {
      assert s[i] in multiset(sorted);
      var k :| 0 <= k < |sorted| && sorted[k] == s[i];
    }
  }

  /**
   * The delays are the raw delays minus the earliest of them: as a multiset,
   * and, since both are ascending, entry by entry against the sorted raw delays.
   */
  lemma DelaysAreRawMinusEarliest(rDs: real, sigmaDs: real, logDraws: seq<real>)
    requires |logDraws| > 0
    ensures var raw := RawDelays(rDs, sigmaDs, logDraws);
      var earliest := Sort(raw)[0];
      && earliest in raw
      && (forall i :: 0 <= i < |raw| ==> earliest <= raw[i])
      && multiset(Delay(rDs, sigmaDs, logDraws).value) == multiset(Shift(raw, earliest))
  {
    var raw := RawDelays(rDs, sigmaDs, logDraws);
    var earliest := Sort(raw)[0];
    SortedHeadIsMinimum(raw);
    var p := ArgSort(raw);
    ShiftGather(raw, p, earliest);
    GatherPermutation(Shift(raw, earliest), p);
  }

  /** Shifting keeps the gaps between consecutive delays. */
  lemma DelayGapsAreSortedGaps(rDs: real, sigmaDs: real, logDraws: seq<real>, i: nat)
    requires i + 1 < |logDraws|
    ensures var sorted := Sort(RawDelays(rDs, sigmaDs, logDraws));
      Delay(rDs, sigmaDs, logDraws).value[i + 1] - Delay(rDs, sigmaDs, logDraws).value[i] == sorted[i + 1] - sorted[i]
  {
  }

  /** With r_DS * sigma_DS >= 0 and draws Z_n in (0, 1], so ln(Z_n) <= 0, every raw delay is non-negative. */
  lemma RawDelaysNonNegative(rDs: real, sigmaDs: real, logDraws: seq<real>)
    requires rDs * sigmaDs >= 0.0
    requires forall i :: 0 <= i < |logDraws| ==> logDraws[i] <= 0.0
    ensures forall i :: 0 <= i < |logDraws| ==> RawDelays(rDs, sigmaDs, logDraws)[i] >= 0.0
  {
    forall i | 0 <= i < |logDraws| ensures RawDelays(rDs, sigmaDs, logDraws)[i] >= 0.0 {
      var c := rDs * sigmaDs;
      assert -rDs * sigmaDs * logDraws[i] == c * -logDraws[i];
    }
  }
}
