/**
 * calculate_aod (angles_utilities.py): N zero-mean Gaussian AoD deviations,
 * ordered by increasing absolute value. The standard-normal draws are an
 * input; the function scales them by r_AS * sigma_AS.
 */
module Angles {
  import opened Sequences
  import opened Sorting

  /** What calculate_aod returns: the ordered deviations and the permutation that ordered them. */
  datatype AodDeviations = AodDeviations(values: seq<real>, order: seq<nat>)

  /** The draws scaled to standard deviation r_AS * sigma_AS. */
  function ScaledDraws(rAs: real, sigmaAs: real, normals: seq<real>): (raw: seq<real>)
    ensures |raw| == |normals|
    ensures forall i :: 0 <= i < |normals| ==> raw[i] == rAs * sigmaAs * normals[i]
  {
    seq(|normals|, i requires 0 <= i < |normals| => normals[i] * (rAs * sigmaAs))
  }

  function Magnitudes(s: seq<real>): (m: seq<real>)
    ensures |m| == |s|
    ensures forall i :: 0 <= i < |s| ==> m[i] == Abs(s[i])
  {
    seq(|s|, i requires 0 <= i < |s| => Abs(s[i]))
  }

  /**
   * calculate_aod: np.argsort of the absolute values gives `order`, and the
   * returned values are the scaled draws read through it.
   */
  function CalculateAod(rAs: real, sigmaAs: real, normals: seq<real>): (r: AodDeviations)
    ensures IsPermutation(r.order, |normals|) && |r.order| == |normals|
    ensures |r.values| == |normals|
    ensures forall i :: 0 <= i < |normals| ==>
      r.order[i] < |normals| && r.values[i] == ScaledDraws(rAs, sigmaAs, normals)[r.order[i]]
    ensures forall a, b :: 0 <= a < b < |normals| ==> Abs(r.values[a]) <= Abs(r.values[b])
  {
    var raw := ScaledDraws(rAs, sigmaAs, normals);
    var order := ArgSort(Magnitudes(raw));
    AodDeviations(Gather(raw, order), order)
  }

  /** The deviations are exactly the scaled draws, rearranged. */
  lemma AodValuesAreScaledDraws(rAs: real, sigmaAs: real, normals: seq<real>)
    ensures multiset(CalculateAod(rAs, sigmaAs, normals).values) == multiset(ScaledDraws(rAs, sigmaAs, normals))
  {
    var raw := ScaledDraws(rAs, sigmaAs, normals);
    GatherPermutation(raw, ArgSort(Magnitudes(raw)));
  }

  /** The first deviation is one of smallest magnitude among all the draws. */
  lemma FirstAodIsSmallest(rAs: real, sigmaAs: real, normals: seq<real>)
    requires |normals| > 0
    ensures forall j :: 0 <= j < |normals| ==>
      Abs(CalculateAod(rAs, sigmaAs, normals).values[0]) <= Abs(ScaledDraws(rAs, sigmaAs, normals)[j])
  {
    var r := CalculateAod(rAs, sigmaAs, normals);
    PermutationFacts(r.order, |normals|);
    forall j | 0 <= j < |normals|
      ensures Abs(r.values[0]) <= Abs(ScaledDraws(rAs, sigmaAs, normals)[j])
    {
      var k := PositionOf(r.order, j);
      assert r.values[k] == ScaledDraws(rAs, sigmaAs, normals)[j];
    }
  }
}
