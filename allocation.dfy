/**
 * Power allocation over the streams of a channel (allocation_utilities.py):
 * water-filling, row by row, and the uniform baseline.
 *
 * Every stream k of a row has an inverse SNR s[k]. Water-filling pours the
 * budget P up to a common water level L and gives stream k the depth
 * max(L - s[k], 0). The code starts from L0 = (P + sum s) / n and, while the
 * clipped depths add up to more than P, lowers the level by the excess divided
 * by n (all streams, clipped or not). In exact arithmetic that loop need not
 * stop, so the model bounds it by `fuel` passes.
 */
module Allocation {
  import opened Wrappers
  import opened Sequences
  import opened Sorting

  /** noise / gain for a positive gain and 0 for any other gain. */
  function InverseSnr(gain: real, noise: real): (r: real)
    ensures gain > 0.0 ==> r * gain == noise
    ensures gain <= 0.0 ==> r == 0.0
  {
    if gain > 0.0 then noise / gain else 0.0
  }

  lemma InverseSnrNonNegative(gain: real, noise: real)
    requires noise >= 0.0
    ensures InverseSnr(gain, noise) >= 0.0
  {
  }

  /** Stream by stream, the inverse SNR of the row's gains. */
  function InverseSnrs(row: seq<real>, noise: real): (r: seq<real>)
    ensures |r| == |row|
    ensures forall j :: 0 <= j < |row| ==> r[j] == InverseSnr(row[j], noise)
  {
    seq(|row|, j requires 0 <= j < |row| => InverseSnr(row[j], noise))
  }

  /** The depth of every stream below the water level, clipped at zero. */
  function Clip(level: real, s: seq<real>): (c: seq<real>)
    ensures |c| == |s|
    ensures forall k :: 0 <= k < |s| ==> c[k] >= 0.0 && c[k] >= level - s[k]
    ensures forall k :: 0 <= k < |s| ==> c[k] == 0.0 || c[k] == level - s[k]
  {
    seq(|s|, k requires 0 <= k < |s| => Max(level - s[k], 0.0))
  }

  lemma ClipAt(level: real, s: seq<real>, k: nat)
    requires k < |s|
    ensures Clip(level, s)[k] == Max(level - s[k], 0.0)
  {
  }

  /** The total depth below the level with nothing clipped: the sum of level - s[k]. */
  function Unclipped(level: real, s: seq<real>): real {
    if s == [] then 0.0 else (level - s[0]) + Unclipped(level, s[1..])
  }

  lemma {:induction false} UnclippedIsLinear(level: real, s: seq<real>)
    ensures Unclipped(level, s) == |s| as real * level - Sum(s)
  {
    if s != [] {
      UnclippedIsLinear(level, s[1..]);
      assert |s| as real * level == level + |s[1..]| as real * level;
    }
  }

  /** Between two levels the unclipped total moves by n times their distance. */
  lemma UnclippedShift(lo: real, hi: real, s: seq<real>)
    ensures Unclipped(hi, s) - Unclipped(lo, s) == |s| as real * (hi - lo)
  {
    UnclippedIsLinear(lo, s);
    UnclippedIsLinear(hi, s);
    var n := |s| as real;
    assert n * (hi - lo) == n * hi - n * lo;
  }

  /** Clipping only adds: the clipped total is at least the unclipped one, and equal to it when no stream is clipped. */
  lemma {:induction false} ClipSumBound(level: real, s: seq<real>)
    ensures Sum(Clip(level, s)) >= Unclipped(level, s)
    ensures (forall k :: 0 <= k < |s| ==> s[k] <= level) ==> Sum(Clip(level, s)) == Unclipped(level, s)
  {
    if s != [] {
      var t := s[1..];
      assert Clip(level, s)[1..] == Clip(level, t);
      ClipSumBound(level, t);
      assert forall k :: 0 <= k < |t| ==> t[k] == s[k + 1];
    }
  }

  /** A clipped stream makes the clipped total exceed the unclipped one. */
  lemma {:induction false} ClipSumStrict(level: real, s: seq<real>, k: nat)
    requires k < |s| && s[k] > level
    ensures Sum(Clip(level, s)) > Unclipped(level, s)
  {
    var t := s[1..];
    assert Clip(level, s)[1..] == Clip(level, t);
    ClipSumBound(level, t);
    if k > 0 {
      ClipSumStrict(level, t, k - 1);
    }
  }

  /** Raising the level raises the clipped total by at least 0 and at most the rise of the unclipped total. */
  lemma {:induction false} ClipSumLipschitz(lo: real, hi: real, s: seq<real>)
    requires lo <= hi
    ensures Sum(Clip(lo, s)) <= Sum(Clip(hi, s)) <= Sum(Clip(lo, s)) + (Unclipped(hi, s) - Unclipped(lo, s))
  {
    if s != [] {
      assert Clip(lo, s)[1..] == Clip(lo, s[1..]);
      assert Clip(hi, s)[1..] == Clip(hi, s[1..]);
      ClipSumLipschitz(lo, hi, s[1..]);
    }
  }

  /** The first water level, (P + sum s) / n. */
  function InitialLevel(s: seq<real>, totalPower: real): (level: real)
    requires |s| > 0
    ensures |s| as real * level == totalPower + Sum(s)
  {
    MulDivCancel(|s| as real, totalPower + Sum(s));
    (totalPower + Sum(s)) / |s| as real
  }

  /** Unclipped, the initial depths L0 - s[k] add up to exactly P. */
  lemma InitialLevelSpendsBudget(s: seq<real>, totalPower: real)
    requires |s| > 0
    ensures Unclipped(InitialLevel(s, totalPower), s) == totalPower
  {
    var n, t := |s| as real, Sum(s);
    UnclippedIsLinear(InitialLevel(s, totalPower), s);
    assert InitialLevel(s, totalPower) == (totalPower + t) / n;
    MulDivCancel(n, totalPower + t);
  }

  /**
   * Clipped at zero, the initial depths add up to at least P, and to exactly P
   * precisely when no stream is clipped.
   */
  lemma InitialLevelCoversBudget(s: seq<real>, totalPower: real)
    requires |s| > 0
    ensures Sum(Clip(InitialLevel(s, totalPower), s)) >= totalPower
    ensures Sum(Clip(InitialLevel(s, totalPower), s)) == totalPower
        <==> forall k :: 0 <= k < |s| ==> s[k] <= InitialLevel(s, totalPower)
  {
    var level := InitialLevel(s, totalPower);
    InitialLevelSpendsBudget(s, totalPower);
    ClipSumBound(level, s);
    if k :| 0 <= k < |s| && s[k] > level {
      ClipSumStrict(level, s, k);
    }
  }

  /** One pass of the correction loop: the level drops by the excess spread over all n streams. */
  function Lower(level: real, s: seq<real>, totalPower: real): (lowered: real)
    requires |s| > 0
    ensures |s| as real * (level - lowered) == Sum(Clip(level, s)) - totalPower
  {
    MulDivCancel(|s| as real, Sum(Clip(level, s)) - totalPower);
    level - (Sum(Clip(level, s)) - totalPower) / |s| as real
  }

  /** Lowering the level by excess / n lowers the unclipped total by exactly the excess. */
  lemma LowerDropsUnclipped(level: real, s: seq<real>, excess: real)
    requires |s| > 0
    ensures Unclipped(level, s) - Unclipped(level - excess / |s| as real, s) == excess
  {
    var n := |s| as real;
    var d := excess / n;
    UnclippedShift(level - d, level, s);
    assert level - (level - d) == d;
    assert Unclipped(level, s) - Unclipped(level - d, s) == n * d;
    MulDivCancel(n, excess);
  }

  /**
   * A pass taken while the total exceeds P lowers the level strictly and
   * cannot push the total below P: the total falls by at most the excess.
   */
  lemma LowerStep(level: real, s: seq<real>, totalPower: real)
    requires |s| > 0 && Sum(Clip(level, s)) > totalPower
    ensures Lower(level, s, totalPower) < level
    ensures Sum(Clip(Lower(level, s, totalPower), s)) >= totalPower
  {
    var excess := Sum(Clip(level, s)) - totalPower;
    var lowered := level - excess / |s| as real;
    assert Lower(level, s, totalPower) == lowered;
    LowerDropsUnclipped(level, s, excess);
    ClipSumLipschitz(lowered, level, s);
  }

  /**
   * The level the loop leaves with after at most `fuel` passes: it stops as
   * soon as the clipped total is at most P.
   */
  function SettledLevel(level: real, s: seq<real>, totalPower: real, fuel: nat): (r: real)
    requires |s| > 0
    ensures r <= level
    ensures Sum(Clip(level, s)) >= totalPower ==> Sum(Clip(r, s)) >= totalPower
    decreases fuel
  {
    if fuel == 0 || Sum(Clip(level, s)) <= totalPower then level
    else
      LowerStep(level, s, totalPower);
      SettledLevel(Lower(level, s, totalPower), s, totalPower, fuel - 1)
  }

  /** The inverse SNRs of a row, in the ascending order np.argsort gives them. */
  function SortedInverseSnrs(row: seq<real>, noise: real): (s: seq<real>)
    ensures |s| == |row|
    ensures Ascending(s)
    ensures multiset(s) == multiset(InverseSnrs(row, noise))
  {
    var inv := InverseSnrs(row, noise);
    assert Sort(inv) == Gather(inv, ArgSort(inv));
    Gather(inv, ArgSort(inv))
  }

  /** The water level of a non-empty row when the loop ends. */
  function FinalLevel(row: seq<real>, totalPower: real, noise: real, fuel: nat): (level: real)
    requires |row| > 0
    ensures level <= InitialLevel(SortedInverseSnrs(row, noise), totalPower)
    ensures Sum(Clip(level, SortedInverseSnrs(row, noise))) >= totalPower
  {
    var s := SortedInverseSnrs(row, noise);
    InitialLevelCoversBudget(s, totalPower);
    SettledLevel(InitialLevel(s, totalPower), s, totalPower, fuel)
  }

  /** The row's allocation when the loop ends, still in ascending inverse-SNR order. */
  function SortedAllocation(row: seq<real>, totalPower: real, noise: real, fuel: nat): (a: seq<real>)
    ensures |a| == |row|
    ensures forall k :: 0 <= k < |a| ==> a[k] >= 0.0
    ensures |row| > 0 ==> Sum(a) >= totalPower
  {
    if |row| == 0 then []
    else Clip(FinalLevel(row, totalPower, noise, fuel), SortedInverseSnrs(row, noise))
  }

  /** One row of the final allocation: the sorted depths written back to their own streams. */
  function RowAllocation(row: seq<real>, totalPower: real, noise: real, fuel: nat): (a: seq<real>)
    ensures |a| == |row|
    ensures multiset(a) == multiset(SortedAllocation(row, totalPower, noise, fuel))
  {
    Unsort(SortedAllocation(row, totalPower, noise, fuel), ArgSort(InverseSnrs(row, noise)))
  }

  /** The row has converged: its allocations fit the budget. */
  ghost predicate Settled(row: seq<real>, totalPower: real, noise: real, fuel: nat) {
    Sum(RowAllocation(row, totalPower, noise, fuel)) <= totalPower
  }

  /**
   * In the original stream order: stream j gets max(L - s_j, 0), where L is
   * the final level and s_j the inverse SNR of stream j itself.
   */
  lemma RowAllocationAt(row: seq<real>, totalPower: real, noise: real, fuel: nat, j: nat)
    requires j < |row|
    ensures RowAllocation(row, totalPower, noise, fuel)[j]
         == Max(FinalLevel(row, totalPower, noise, fuel) - InverseSnr(row[j], noise), 0.0)
  {
    var inv := InverseSnrs(row, noise);
    var order := ArgSort(inv);
    var sorted := SortedAllocation(row, totalPower, noise, fuel);
    PermutationFacts(order, |row|);
    var k := PositionOf(order, j);
    var level, snrs := FinalLevel(row, totalPower, noise, fuel), SortedInverseSnrs(row, noise);
    assert RowAllocation(row, totalPower, noise, fuel)[j] == sorted[k];
    assert sorted == Clip(level, snrs);
    assert snrs[k] == inv[j];
    ClipAt(level, snrs, k);
  }

  /** Writing the depths back to their streams keeps their total. */
  lemma RowSumIsSortedSum(row: seq<real>, totalPower: real, noise: real, fuel: nat)
    ensures Sum(RowAllocation(row, totalPower, noise, fuel)) == Sum(SortedAllocation(row, totalPower, noise, fuel))
  {
    SumPermutation(RowAllocation(row, totalPower, noise, fuel), SortedAllocation(row, totalPower, noise, fuel));
  }

  /**
   * What the loop guarantees of a row: non-negative allocations, a total never
   * below P, and a total of exactly P whenever the loop has stopped by itself.
   */
  lemma RowAllocationFacts(row: seq<real>, totalPower: real, noise: real, fuel: nat)
    requires |row| > 0
    ensures forall j :: 0 <= j < |row| ==> RowAllocation(row, totalPower, noise, fuel)[j] >= 0.0
    ensures Sum(RowAllocation(row, totalPower, noise, fuel)) >= totalPower
    ensures Settled(row, totalPower, noise, fuel) ==> Sum(RowAllocation(row, totalPower, noise, fuel)) == totalPower
  {
    var s := SortedInverseSnrs(row, noise);
    var level := FinalLevel(row, totalPower, noise, fuel);
    assert Sum(RowAllocation(row, totalPower, noise, fuel)) == Sum(Clip(level, s)) by {
      RowSumIsSortedSum(row, totalPower, noise, fuel);
    }
    assert Sum(Clip(level, s)) >= totalPower by {
      InitialLevelCoversBudget(s, totalPower);
    }
    forall j | 0 <= j < |row| ensures RowAllocation(row, totalPower, noise, fuel)[j] >= 0.0 {
      RowAllocationAt(row, totalPower, noise, fuel, j);
    }
  }

  /** With a zero budget, a row that has settled allocates nothing to any stream. */
  lemma ZeroBudgetAllocatesNothing(row: seq<real>, noise: real, fuel: nat)
    requires |row| > 0 && Settled(row, 0.0, noise, fuel)
    ensures forall j :: 0 <= j < |row| ==> RowAllocation(row, 0.0, noise, fuel)[j] == 0.0
  {
    RowAllocationFacts(row, 0.0, noise, fuel);
    ZeroSumOfNonNegative(RowAllocation(row, 0.0, noise, fuel));
  }

  /** A level above some stream's inverse SNR leaves a positive clipped total. */
  lemma ClipSumPositive(level: real, s: seq<real>, a: nat)
    requires a < |s| && s[a] < level
    ensures Sum(Clip(level, s)) > 0.0
  {
    var c := Clip(level, s);
    forall k | 0 <= k < |s| ensures c[k] >= 0.0 {
      ClipAt(level, s, k);
    }
    ClipAt(level, s, a);
    SumNonNegative(c);
  }

  /** x < n * d with n > 0 puts x / n below d. */
  lemma DivBelow(x: real, n: real, d: real)
    requires n > 0.0 && x < n * d
    ensures x / n < d
  {
    MulDivCancel(n, x);
  }

  /**
   * With a zero budget and a row whose inverse SNRs are not all equal, a
   * level above the smallest inverse SNR never drops to it: every pass
   * removes less than the gap, because the larger inverse SNRs are clipped
   * by less than it. So the clipped total stays positive, above the budget.
   */
  lemma {:induction false} ZeroBudgetStaysAboveFloor(level: real, s: seq<real>, b: nat, fuel: nat)
    requires b < |s| && Ascending(s) && s[0] < s[b] && s[0] < level
    ensures s[0] < SettledLevel(level, s, 0.0, fuel)
    decreases fuel
  {
    var c := Clip(level, s);
    ClipSumPositive(level, s, 0);
    if fuel > 0 {
      var gap := level - s[0];
      forall k | 0 <= k < |s| ensures c[k] <= gap {
        ClipAt(level, s, k);
      }
      ClipAt(level, s, b);
      SumBelowCopies(c, gap);
      DivBelow(Sum(c), |s| as real, gap);
      ZeroBudgetStaysAboveFloor(Lower(level, s, 0.0), s, b, fuel - 1);
    }
  }

  /** Equal inverse SNRs with a zero budget: the first level is their common value. */
  lemma EvenFirstLevel(s: seq<real>)
    requires |s| > 0 && forall k :: 0 <= k < |s| ==> s[k] == s[0]
    ensures InitialLevel(s, 0.0) == s[0]
  {
    var n := |s| as real;
    SumOfCopies(s[0], s);
    assert InitialLevel(s, 0.0) == (n * s[0]) / n;
  }

  /** At or below every inverse SNR nothing is allocated. */
  lemma ClipSumZero(level: real, s: seq<real>)
    requires forall k :: 0 <= k < |s| ==> level <= s[k]
    ensures Sum(Clip(level, s)) == 0.0
  {
    forall k | 0 <= k < |s| ensures Clip(level, s)[k] == 0.0 {
      ClipAt(level, s, k);
    }
    SumOfCopies(0.0, Clip(level, s));
  }

  /** Equal inverse SNRs with a zero budget: the loop stops at once and allocates nothing. */
  lemma EvenRowSettles(s: seq<real>, fuel: nat)
    requires |s| > 0 && forall k :: 0 <= k < |s| ==> s[k] == s[0]
    ensures Sum(Clip(SettledLevel(InitialLevel(s, 0.0), s, 0.0, fuel), s)) == 0.0
  {
    EvenFirstLevel(s);
    ClipSumZero(s[0], s);
  }

  /**
   * Unequal inverse SNRs with a zero budget: the first level lies above the
   * smallest, so after any number of passes something is still allocated.
   */
  lemma UnevenRowNeverSettles(s: seq<real>, b: nat, fuel: nat)
    requires b < |s| && Ascending(s) && s[0] < s[b]
    ensures Sum(Clip(SettledLevel(InitialLevel(s, 0.0), s, 0.0, fuel), s)) > 0.0
  {
    var first := InitialLevel(s, 0.0);
    assert s[0] < first by {
      if first <= s[0] {
        ClipSumZero(first, s);
        InitialLevelCoversBudget(s, 0.0);
      }
    }
    ZeroBudgetStaysAboveFloor(first, s, b, fuel);
    ClipSumPositive(SettledLevel(first, s, 0.0, fuel), s, 0);
  }

  /** A row whose inverse SNRs are all equal sorts to a constant sequence. */
  lemma EvenRowSortsEven(row: seq<real>, noise: real)
    requires |row| > 0
    requires forall i, j :: 0 <= i < |row| && 0 <= j < |row| ==> InverseSnr(row[i], noise) == InverseSnr(row[j], noise)
    ensures var s := SortedInverseSnrs(row, noise); forall k :: 0 <= k < |s| ==> s[k] == s[0]
  {
    var inv := InverseSnrs(row, noise);
    var order := ArgSort(inv);
    var s := SortedInverseSnrs(row, noise);
    PermutationFacts(order, |row|);
    forall k | 0 <= k < |s| ensures s[k] == s[0] {
      assert s[k] == inv[order[k]] && s[0] == inv[order[0]];
    }
  }

  /** Two streams with different inverse SNRs put some sorted value above the smallest. */
  lemma UnevenRowSortsUneven(row: seq<real>, noise: real, i: nat, j: nat) returns (b: nat)
    requires i < |row| && j < |row| && InverseSnr(row[i], noise) != InverseSnr(row[j], noise)
    ensures var s := SortedInverseSnrs(row, noise); b < |s| && s[0] < s[b]
  {
    var inv := InverseSnrs(row, noise);
    var order := ArgSort(inv);
    var s := SortedInverseSnrs(row, noise);
    PermutationFacts(order, |row|);
    var pi, pj := PositionOf(order, i), PositionOf(order, j);
    assert s[pi] == inv[i] && s[pj] == inv[j];
    b := if s[pi] != s[0] then pi else pj;
    assert s[0] <= s[b];
  }

  /**
   * With a zero budget the loop stops with nothing allocated only for a row
   * whose inverse SNRs are all equal; for any other row the clipped total
   * stays positive after any number of passes, so the row never settles.
   */
  lemma ZeroBudgetSettlesIffEven(row: seq<real>, noise: real, fuel: nat)
    requires |row| > 0
    ensures Settled(row, 0.0, noise, fuel)
        <==> forall i, j :: 0 <= i < |row| && 0 <= j < |row| ==> InverseSnr(row[i], noise) == InverseSnr(row[j], noise)
  {
    var s := SortedInverseSnrs(row, noise);
    assert Sum(RowAllocation(row, 0.0, noise, fuel)) == Sum(Clip(FinalLevel(row, 0.0, noise, fuel), s)) by {
      RowSumIsSortedSum(row, 0.0, noise, fuel);
    }
    if forall i, j :: 0 <= i < |row| && 0 <= j < |row| ==> InverseSnr(row[i], noise) == InverseSnr(row[j], noise) {
      EvenRowSortsEven(row, noise);
      EvenRowSettles(s, fuel);
    } else {
      var i, j :| 0 <= i < |row| && 0 <= j < |row| && InverseSnr(row[i], noise) != InverseSnr(row[j], noise);
      var b := UnevenRowSortsUneven(row, noise, i, j);
      UnevenRowNeverSettles(s, b, fuel);
    }
  }

  lemma {:induction false} SettledLevelAntitone(level: real, s: seq<real>, totalPower: real, fuel: nat)
    requires |s| > 0
    ensures SettledLevel(level, s, totalPower, fuel + 1) <= SettledLevel(level, s, totalPower, fuel)
    ensures Sum(Clip(SettledLevel(level, s, totalPower, fuel), s)) > totalPower
        ==> SettledLevel(level, s, totalPower, fuel + 1) < SettledLevel(level, s, totalPower, fuel)
    ensures Sum(Clip(SettledLevel(level, s, totalPower, fuel), s)) <= totalPower
        ==> SettledLevel(level, s, totalPower, fuel + 1) == SettledLevel(level, s, totalPower, fuel)
    decreases fuel
  {
    if fuel == 0 {
      if Sum(Clip(level, s)) > totalPower {
        LowerStep(level, s, totalPower);
      }
    } else if Sum(Clip(level, s)) > totalPower {
      SettledLevelAntitone(Lower(level, s, totalPower), s, totalPower, fuel - 1);
    }
  }

  /**
   * Each further pass lowers the final level strictly while the row is over
   * budget and leaves it where it is once the row has settled.
   */
  lemma OnePassLowersLevel(row: seq<real>, totalPower: real, noise: real, fuel: nat)
    requires |row| > 0
    ensures FinalLevel(row, totalPower, noise, fuel + 1) <= FinalLevel(row, totalPower, noise, fuel)
    ensures !Settled(row, totalPower, noise, fuel)
        ==> FinalLevel(row, totalPower, noise, fuel + 1) < FinalLevel(row, totalPower, noise, fuel)
    ensures Settled(row, totalPower, noise, fuel)
        ==> FinalLevel(row, totalPower, noise, fuel + 1) == FinalLevel(row, totalPower, noise, fuel)
  {
    var s := SortedInverseSnrs(row, noise);
    var level := FinalLevel(row, totalPower, noise, fuel);
    assert Settled(row, totalPower, noise, fuel) <==> Sum(Clip(level, s)) <= totalPower by {
      RowSumIsSortedSum(row, totalPower, noise, fuel);
    }
    SettledLevelAntitone(InitialLevel(s, totalPower), s, totalPower, fuel);
  }

  /**
   * A further pass never raises the allocation of any stream; once the row has
   * settled, further passes change nothing.
   */
  lemma OnePassMore(row: seq<real>, totalPower: real, noise: real, fuel: nat)
    requires |row| > 0
    ensures forall j :: 0 <= j < |row| ==>
        RowAllocation(row, totalPower, noise, fuel + 1)[j] <= RowAllocation(row, totalPower, noise, fuel)[j]
    ensures Settled(row, totalPower, noise, fuel)
        ==> RowAllocation(row, totalPower, noise, fuel + 1) == RowAllocation(row, totalPower, noise, fuel)
  {
    OnePassLowersLevel(row, totalPower, noise, fuel);
    forall j | 0 <= j < |row| ensures
        RowAllocation(row, totalPower, noise, fuel + 1)[j] <= RowAllocation(row, totalPower, noise, fuel)[j]
    {
      LowerLevelGivesLess(row, totalPower, noise, fuel, fuel + 1, j);
    }
    if Settled(row, totalPower, noise, fuel) {
      assert SortedAllocation(row, totalPower, noise, fuel + 1) == SortedAllocation(row, totalPower, noise, fuel);
    }
  }

  /** The lower of two final levels gives every stream at most as much power. */
  lemma LowerLevelGivesLess(row: seq<real>, totalPower: real, noise: real, fuel: nat, more: nat, j: nat)
    requires j < |row|
    requires FinalLevel(row, totalPower, noise, more) <= FinalLevel(row, totalPower, noise, fuel)
    ensures RowAllocation(row, totalPower, noise, more)[j] <= RowAllocation(row, totalPower, noise, fuel)[j]
  {
    RowAllocationAt(row, totalPower, noise, fuel, j);
    RowAllocationAt(row, totalPower, noise, more, j);
  }

  /** A stream whose inverse SNR is no larger than another's never receives less power. */
  lemma StrongerStreamGetsMore(row: seq<real>, totalPower: real, noise: real, fuel: nat, i: nat, j: nat)
    requires i < |row| && j < |row|
    requires InverseSnr(row[j], noise) <= InverseSnr(row[i], noise)
    ensures RowAllocation(row, totalPower, noise, fuel)[i] <= RowAllocation(row, totalPower, noise, fuel)[j]
  {
    RowAllocationAt(row, totalPower, noise, fuel, i);
    RowAllocationAt(row, totalPower, noise, fuel, j);
  }

  /**
   * When the initial level clips no stream, the loop never runs: stream k gets
   * exactly L0 - s[k], and the row uses the whole budget.
   */
  lemma UnclippedRowIsClosedForm(row: seq<real>, totalPower: real, noise: real, fuel: nat)
    requires |row| > 0
    requires forall k :: 0 <= k < |row| ==>
      SortedInverseSnrs(row, noise)[k] <= InitialLevel(SortedInverseSnrs(row, noise), totalPower)
    ensures FinalLevel(row, totalPower, noise, fuel) == InitialLevel(SortedInverseSnrs(row, noise), totalPower)
    ensures forall k :: 0 <= k < |row| ==>
      (SortedAllocation(row, totalPower, noise, fuel)[k]
       == InitialLevel(SortedInverseSnrs(row, noise), totalPower) - SortedInverseSnrs(row, noise)[k])
    ensures Settled(row, totalPower, noise, fuel)
  {
    var s := SortedInverseSnrs(row, noise);
    var level := InitialLevel(s, totalPower);
    assert Sum(Clip(level, s)) == totalPower by {
      InitialLevelCoversBudget(s, totalPower);
    }
    assert FinalLevel(row, totalPower, noise, fuel) == level;
    forall k | 0 <= k < |row| ensures SortedAllocation(row, totalPower, noise, fuel)[k] == level - s[k] {
      ClipAt(level, s, k);
    }
    RowSumIsSortedSum(row, totalPower, noise, fuel);
  }

  /** With a positive noise power every inverse SNR is non-negative, and a stream of zero gain has the smallest, 0. */
  lemma ZeroGainSortsFirst(row: seq<real>, noise: real, j: nat)
    requires noise > 0.0
    requires j < |row| && row[j] <= 0.0
    ensures SortedInverseSnrs(row, noise)[0] == 0.0
  {
    var inv := InverseSnrs(row, noise);
    var order := ArgSort(inv);
    PermutationFacts(order, |row|);
    var k := PositionOf(order, j);
    assert inv[j] == 0.0;
    var first := order[0];
    assert inv[first] >= 0.0 by {
      InverseSnrNonNegative(row[first], noise);
    }
    assert inv[first] <= inv[j] by {
      if k != 0 {
        assert SortedBy(inv, order);
        assert inv[order[0]] <= inv[order[k]];
      }
    }
  }

  /**
   * With a positive noise power, a stream of zero gain has inverse SNR 0, the
   * smallest of the row: it sorts first and receives the largest allocation
   * rather than none.
   */
  lemma ZeroGainGetsLargestShare(row: seq<real>, totalPower: real, noise: real, fuel: nat, j: nat)
    requires noise > 0.0
    requires j < |row| && row[j] <= 0.0
    ensures SortedInverseSnrs(row, noise)[0] == 0.0
    ensures forall i :: 0 <= i < |row| ==>
      RowAllocation(row, totalPower, noise, fuel)[i] <= RowAllocation(row, totalPower, noise, fuel)[j]
  {
    ZeroGainSortsFirst(row, noise, j);
    forall i | 0 <= i < |row| ensures
      RowAllocation(row, totalPower, noise, fuel)[i] <= RowAllocation(row, totalPower, noise, fuel)[j]
    {
      InverseSnrNonNegative(row[i], noise);
      StrongerStreamGetsMore(row, totalPower, noise, fuel, i, j);
    }
  }

  /** The only ascending arrangement of two distinct values. */
  lemma TwoAscending(s: seq<real>, x: real, y: real)
    requires x < y && Ascending(s) && multiset(s) == multiset{x, y}
    ensures s == [x, y]
  {
    assert |s| == |multiset(s)| == 2;
    assert s == [s[0], s[1]];
    assert s[0] in multiset(s) && s[1] in multiset(s);
  }

  /** The row [1, 0.1] with noise 1 has inverse SNRs 1 and 10, already in ascending order. */
  lemma ExampleInverseSnrs()
    ensures SortedInverseSnrs([1.0, 0.1], 1.0) == [1.0, 10.0]
  {
    var inv := InverseSnrs([1.0, 0.1], 1.0);
    assert inv == [1.0, 10.0];
    TwoAscending(SortedInverseSnrs([1.0, 0.1], 1.0), 1.0, 10.0);
  }

  /**
   * Two streams with inverse SNRs 1 and 10 and a budget of 1: the second is
   * clipped at every level the loop visits, so each pass only halves the
   * excess and no number of passes brings the row within budget. The loop of
   * the code ends on such input only through floating-point rounding.
   */
  lemma NeverSettlesInExactArithmetic(fuel: nat)
    ensures !Settled([1.0, 0.1], 1.0, 1.0, fuel)
  {
    var row := [1.0, 0.1];
    var s := SortedInverseSnrs(row, 1.0);
    ExampleInverseSnrs();
    assert InitialLevel(s, 1.0) == 6.0;
    HalvingLevel(6.0, fuel);
    RowSumIsSortedSum(row, 1.0, 1.0, fuel);
  }

  /** Stream depths at a level in (2, 10] over inverse SNRs [1, 10]: only the first is under water. */
  lemma ClipOfExample(level: real)
    requires 2.0 < level <= 10.0
    ensures Sum(Clip(level, [1.0, 10.0])) == level - 1.0
  {
    var c := Clip(level, [1.0, 10.0]);
    assert c == [level - 1.0, 0.0];
    assert c[1..] == [0.0];
    assert Sum([0.0]) == 0.0 + Sum([]);
  }

  /** On inverse SNRs [1, 10] with budget 1, every level in (2, 10] stays in (2, 10] and over budget. */
  lemma {:induction false} HalvingLevel(level: real, fuel: nat)
    requires 2.0 < level <= 10.0
    ensures var r := SettledLevel(level, [1.0, 10.0], 1.0, fuel);
      2.0 < r <= 10.0 && Sum(Clip(r, [1.0, 10.0])) == r - 1.0
    decreases fuel
  {
    ClipOfExample(level);
    if fuel > 0 {
      assert Lower(level, [1.0, 10.0], 1.0) == (level + 2.0) / 2.0;
      HalvingLevel((level + 2.0) / 2.0, fuel - 1);
    }
  }

  /**
   * The body of the row loop: inverse SNRs, np.argsort, the initial level and
   * the correction loop, stopped after `fuel` passes at the latest.
   */
  method WaterFillRow(row: seq<real>, totalPower: real, noise: real, fuel: nat)
    returns (order: seq<nat>, alloc: seq<real>)
    ensures order == ArgSort(InverseSnrs(row, noise))
    ensures alloc == SortedAllocation(row, totalPower, noise, fuel)
  {
    var inverseSnr := InverseSnrs(row, noise);
    order := ArgSort(inverseSnr);
    var sorted := Gather(inverseSnr, order);
    if |row| == 0 {
      alloc := [];
      return;
    }
    assert sorted == SortedInverseSnrs(row, noise);
    var level := InitialLevel(sorted, totalPower);
    level, alloc := LowerUntilWithinBudget(level, sorted, totalPower, fuel);
  }

  /**
   * The correction loop: while the clipped depths exceed P, lower the level
   * by the excess divided by the number of streams, at most `fuel` times.
   */
  method LowerUntilWithinBudget(start: real, sorted: seq<real>, totalPower: real, fuel: nat)
    returns (level: real, alloc: seq<real>)
    requires |sorted| > 0
    ensures level == SettledLevel(start, sorted, totalPower, fuel)
    ensures alloc == Clip(level, sorted)
  {
    var n := |sorted| as real;
    level := start;
    alloc := Clip(level, sorted);
    var passes := 0;
    while Sum(alloc) > totalPower && passes < fuel
      invariant passes <= fuel
      invariant alloc == Clip(level, sorted)
      invariant SettledLevel(level, sorted, totalPower, fuel - passes) == SettledLevel(start, sorted, totalPower, fuel)
      decreases fuel - passes
    {
      var excess := Sum(alloc) - totalPower;
      PassAdvances(level, level - excess / n, sorted, totalPower, fuel - passes);
      level := level - excess / n;
      alloc := Clip(level, sorted);
      passes := passes + 1;
    }
  }

  /** A pass of the loop leaves the level at which the remaining passes settle unchanged. */
  lemma PassAdvances(level: real, lowered: real, s: seq<real>, totalPower: real, remaining: nat)
    requires |s| > 0 && remaining > 0 && Sum(Clip(level, s)) > totalPower
    requires lowered == level - (Sum(Clip(level, s)) - totalPower) / |s| as real
    ensures SettledLevel(lowered, s, totalPower, remaining - 1) == SettledLevel(level, s, totalPower, remaining)
  {
  }

  /**
   * water_filling: each row of the squared singular values is allocated on its
   * own, and row i of the result depends on row i of the input alone.
   */
  method WaterFilling(gains: seq<seq<real>>, cols: nat, totalPower: real, noise: real, fuel: nat)
    returns (final: array2<real>)
    requires IsMatrix(gains, |gains|, cols)
    ensures fresh(final)
    ensures final.Length0 == |gains| && final.Length1 == cols
    ensures forall i, j :: 0 <= i < |gains| && 0 <= j < cols ==>
      final[i, j] == RowAllocation(gains[i], totalPower, noise, fuel)[j]
  {
    final := new real[|gains|, cols]((i, j) => 0.0);
    for i := 0 to |gains|
      invariant forall r, j :: 0 <= r < i && 0 <= j < cols ==>
        final[r, j] == RowAllocation(gains[r], totalPower, noise, fuel)[j]
    {
      var order, alloc := WaterFillRow(gains[i], totalPower, noise, fuel);
      WriteRow(final, i, order, alloc);
    }
  }

  /** The write-back of water_filling: depth k of the sorted row goes to stream order[k] of row i, and no other row changes. */
  method WriteRow(final: array2<real>, i: nat, order: seq<nat>, alloc: seq<real>)
    requires i < final.Length0 && |alloc| == final.Length1
    requires IsPermutation(order, |alloc|)
    modifies final
    ensures forall j :: 0 <= j < final.Length1 ==> final[i, j] == Unsort(alloc, order)[j]
    ensures forall r, j :: 0 <= r < final.Length0 && r != i && 0 <= j < final.Length1 ==>
      final[r, j] == old(final[r, j])
  {
    PermutationFacts(order, |alloc|);
    for k := 0 to |alloc|
      invariant forall r, j :: 0 <= r < final.Length0 && r != i && 0 <= j < final.Length1 ==>
        final[r, j] == old(final[r, j])
      invariant forall t :: 0 <= t < k ==> final[i, order[t]] == alloc[t]
    {
      final[i, order[k]] := alloc[k];
    }
    forall j | 0 <= j < final.Length1 ensures final[i, j] == Unsort(alloc, order)[j] {
      var t := PositionOf(order, j);
    }
  }

  /**
   * uniform_allocation: every entry gets P / (rows * cols). Python raises
   * ZeroDivisionError when the array is empty.
   */
  function UniformAllocation(rows: nat, cols: nat, totalPower: real): (r: Result<seq<seq<real>>>)
    ensures r.Failure? <==> rows == 0 || cols == 0
    ensures r.Failure? ==> r.fault == ZeroDivision
    ensures r.Success? ==> IsMatrix(r.value, rows, cols)
  {
    if rows * cols == 0 then Failure(ZeroDivision)
    else Success(seq(rows, _ => seq(cols, _ => totalPower / (rows * cols) as real)))
  }

  lemma {:induction false} TotalOfEqualRows(x: real, m: seq<seq<real>>, cols: nat)
    requires IsMatrix(m, |m|, cols)
    requires forall i, j :: 0 <= i < |m| && 0 <= j < cols ==> m[i][j] == x
    ensures Total(m) == (|m| * cols) as real * x
  {
    if m != [] {
      SumOfCopies(x, m[0]);
      TotalOfEqualRows(x, m[1..], cols);
    }
  }

  /** The uniform entries are all equal and add up to the whole budget. */
  lemma UniformSpendsBudget(rows: nat, cols: nat, totalPower: real)
    requires rows > 0 && cols > 0
    ensures UniformAllocation(rows, cols, totalPower).Success?
    ensures forall i, j :: 0 <= i < rows && 0 <= j < cols ==>
      UniformAllocation(rows, cols, totalPower).value[i][j] == UniformAllocation(rows, cols, totalPower).value[0][0]
    ensures Total(UniformAllocation(rows, cols, totalPower).value) == totalPower
  {
    var m := UniformAllocation(rows, cols, totalPower).value;
    var x := totalPower / (rows * cols) as real;
    TotalOfEqualRows(x, m, cols);
  }
}
