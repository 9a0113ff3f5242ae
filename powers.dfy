/**
 * calculate_power (power_n.py): per-path powers from the delays, an
 * exponential decay with shadowing, normalised to add up to 1. The
 * exponential is a function parameter and the shadowing factors
 * 10^(-xi_n / 10) are an input.
 */
module Powers {
  import opened Wrappers
  import opened Sequences

  /** (1 - r_DS)(tau_n - tau_0) / (r_DS sigma_DS): the exponent of each path's decay. */
  function DecayExponents(rDs: real, tn: seq<real>, sigmaDs: real): (e: seq<real>)
    requires |tn| > 0 && rDs * sigmaDs != 0.0
    ensures |e| == |tn|
    ensures e[0] == 0.0
  {
    seq(|tn|, i requires 0 <= i < |tn| => (1.0 - rDs) * (tn[i] - tn[0]) / (rDs * sigmaDs))
  }

  /** P'_n = exp(exponent_n) * shadowing_n, before normalisation. */
  function PathWeights(rDs: real, tn: seq<real>, sigmaDs: real, exp: real -> real, shadowing: seq<real>): (w: seq<real>)
    requires |tn| > 0 && rDs * sigmaDs != 0.0
    requires forall x :: exp(x) > 0.0
    requires |shadowing| == |tn| && forall i :: 0 <= i < |tn| ==> shadowing[i] > 0.0
    ensures |w| == |tn|
    ensures forall i :: 0 <= i < |tn| ==> w[i] > 0.0
  {
    var e := DecayExponents(rDs, tn, sigmaDs);
    seq(|tn|, i requires 0 <= i < |tn| => exp(e[i]) * shadowing[i])
  }

  /** Positive weights have a positive sum. */
  lemma PositiveSum(w: seq<real>)
    requires |w| > 0 && forall i :: 0 <= i < |w| ==> w[i] > 0.0
    ensures Sum(w) > 0.0
  {
    SumNonNegative(w[1..]);
  }

  /** A positive part of a positive whole is a fraction in (0, 1]. */
  lemma FractionOfWhole(x: real, total: real)
    requires 0.0 < x <= total
    ensures 0.0 < x / total <= 1.0
  {
    MulDivCancel(total, x);
  }

  /** A common divisor cancels from a ratio. */
  lemma RatioCancels(x: real, y: real, t: real)
    requires t > 0.0 && y > 0.0
    ensures (x / t) / (y / t) == x / y
  {
    var a, b := x / t, y / t;
    assert a * t == x && b * t == y;
    assert b > 0.0;
    assert a / b == (a * t) / (b * t);
  }

  /** Every weight divided by the sum of all of them. */
  function Normalized(w: seq<real>): (p: seq<real>)
    requires |w| > 0 && forall i :: 0 <= i < |w| ==> w[i] > 0.0
    ensures |p| == |w|
    ensures forall i :: 0 <= i < |w| ==> 0.0 < p[i] <= 1.0
  {
    var total := Sum(w);
    PositiveSum(w);
    SumNonNegative(w);
    assert forall i :: 0 <= i < |w| ==> 0.0 < w[i] / total <= 1.0 by {
      forall i | 0 <= i < |w| {
        FractionOfWhole(w[i], total);
      }
    }
    seq(|w|, i requires 0 <= i < |w| => w[i] / total)
  }

  /** Normalised weights add up to 1. */
  lemma NormalizedSumsToOne(w: seq<real>)
    requires |w| > 0 && forall i :: 0 <= i < |w| ==> w[i] > 0.0
    ensures Sum(Normalized(w)) == 1.0
  {
    var t := Sum(w);
    PositiveSum(w);
    SumDivided(w, t, Normalized(w));
    assert t / t == 1.0;
  }

  /** Normalising keeps the ratio between any two weights. */
  lemma NormalizedKeepsRatios(w: seq<real>, i: nat, j: nat)
    requires |w| > 0 && forall k :: 0 <= k < |w| ==> w[k] > 0.0
    requires i < |w| && j < |w|
    ensures Normalized(w)[i] / Normalized(w)[j] == w[i] / w[j]
  {
    PositiveSum(w);
    RatioCancels(w[i], w[j], Sum(w));
  }

  /**
   * calculate_power: each path's weight divided by the sum of all weights.
   * With no paths, reading the first delay raises IndexError.
   */
  function CalculatePower(rDs: real, tn: seq<real>, sigmaDs: real, exp: real -> real, shadowing: seq<real>): (r: Result<seq<real>>)
    requires rDs * sigmaDs != 0.0
    requires forall x :: exp(x) > 0.0
    requires |shadowing| == |tn| && forall i :: 0 <= i < |tn| ==> shadowing[i] > 0.0
    ensures r.Failure? <==> |tn| == 0
    ensures r.Failure? ==> r.fault == IndexOutOfRange
    ensures r.Success? ==> |r.value| == |tn|
    ensures r.Success? ==> forall i :: 0 <= i < |tn| ==> 0.0 < r.value[i] <= 1.0
  {
    if |tn| == 0 then Failure(IndexOutOfRange)
    else Success(Normalized(PathWeights(rDs, tn, sigmaDs, exp, shadowing)))
  }

  /** The powers add up to 1. */
  lemma PowersSumToOne(rDs: real, tn: seq<real>, sigmaDs: real, exp: real -> real, shadowing: seq<real>)
    requires rDs * sigmaDs != 0.0
    requires forall x :: exp(x) > 0.0
    requires |shadowing| == |tn| && forall i :: 0 <= i < |tn| ==> shadowing[i] > 0.0
    requires |tn| > 0
    ensures Sum(CalculatePower(rDs, tn, sigmaDs, exp, shadowing).value) == 1.0
  {
    NormalizedSumsToOne(PathWeights(rDs, tn, sigmaDs, exp, shadowing));
  }

  /** The ratio between the powers of two paths is the ratio of their weights exp(exponent) * shadowing. */
  lemma PowersKeepRatios(rDs: real, tn: seq<real>, sigmaDs: real, exp: real -> real, shadowing: seq<real>, i: nat, j: nat)
    requires rDs * sigmaDs != 0.0
    requires forall x :: exp(x) > 0.0
    requires |shadowing| == |tn| && forall k :: 0 <= k < |tn| ==> shadowing[k] > 0.0
    requires i < |tn| && j < |tn|
    ensures var p := CalculatePower(rDs, tn, sigmaDs, exp, shadowing).value;
      var w := PathWeights(rDs, tn, sigmaDs, exp, shadowing);
      p[i] / p[j] == w[i] / w[j]
  {
    NormalizedKeepsRatios(PathWeights(rDs, tn, sigmaDs, exp, shadowing), i, j);
  }

  /** The first path has decay exp(0): its weight is exp(0) times its shadowing factor. */
  lemma FirstPathUndecayed(rDs: real, tn: seq<real>, sigmaDs: real, exp: real -> real, shadowing: seq<real>)
    requires rDs * sigmaDs != 0.0
    requires forall x :: exp(x) > 0.0
    requires |shadowing| == |tn| && forall k :: 0 <= k < |tn| ==> shadowing[k] > 0.0
    requires |tn| > 0
    ensures PathWeights(rDs, tn, sigmaDs, exp, shadowing)[0] == exp(0.0) * shadowing[0]
  {
  }
}
