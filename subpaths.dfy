/**
 * Sub-path synthesis and the sector antenna pattern (subpath_utilities.py).
 *
 * Each of the N paths splits into M sub-paths. Their angular offsets come
 * from the fixed 20-entry tables of Table 5.2 of 3GPP TR 25.996, their power
 * is an even share of the path power, and the mobile-station offsets are
 * paired with the base-station ones through one random permutation per path.
 * The random draws (phases and permutations) are inputs here.
 */
module Subpaths {
  import opened Wrappers
  import opened Sequences

  /** Sub-path AoD offsets at the base station, in degrees (Table 5.2 of 3GPP TR 25.996). */
  const AodOffsetTable: seq<real> := [
    0.0894, -0.0894, 0.2826, -0.2826, 0.4984, -0.4984, 0.7431, -0.7431, 1.0257, -1.0257,
    1.3594, -1.3594, 1.7688, -1.7688, 2.2961, -2.2961, 3.0389, -3.0389, 4.3101, -4.3101]

  /** Sub-path AoA offsets at the mobile station, in degrees (Table 5.2 of 3GPP TR 25.996). */
  const AoaOffsetTable: seq<real> := [
    1.5649, -1.5649, 4.9447, -4.9447, 8.7224, -8.7224, 13.0045, -13.0045, 17.9492, -17.9492,
    23.7899, -23.7899, 30.9538, -30.9538, 40.1824, -40.1824, 53.1816, -53.1816, 75.4274, -75.4274]

  /** Every odd entry is the negation of the entry before it. */
  ghost predicate PlusMinusPairs(t: seq<real>) {
    forall i :: 0 <= i < |t| && i % 2 == 1 ==> t[i] == -t[i - 1]
  }

  lemma AodTableIsPlusMinusPairs()
    ensures |AodOffsetTable| == 20 && PlusMinusPairs(AodOffsetTable)
  {
  }

  lemma AoaTableIsPlusMinusPairs()
    ensures |AoaOffsetTable| == 20 && PlusMinusPairs(AoaOffsetTable)
  {
  }

  /** Python's slice `table[:m]` for m >= 0: the first m entries, or all of them when m is larger. */
  function Prefix(table: seq<real>, m: nat): (r: seq<real>)
    ensures |r| == if m <= |table| then m else |table|
    ensures r <= table
  {
    if m <= |table| then table[..m] else table
  }

  /** A prefix of a table of pairs is made of pairs. */
  lemma PrefixKeepsPairs(table: seq<real>, m: nat)
    requires PlusMinusPairs(table)
    ensures PlusMinusPairs(Prefix(table, m))
  {
    var r := Prefix(table, m);
    forall i | 0 <= i < |r| && i % 2 == 1 ensures r[i] == -r[i - 1] {
      assert r[i] == table[i] && r[i - 1] == table[i - 1];
    }
  }

  /** `np.tile(row, (n, 1))`: n copies of the row. */
  function Tile(row: seq<real>, n: nat): (m: seq<seq<real>>)
    ensures IsMatrix(m, n, |row|)
    ensures forall i :: 0 <= i < n ==> m[i] == row
  {
    seq(n, _ => row)
  }

  /** What acquire_subpath_parameters returns, each of shape (N, M) when M <= 20. */
  datatype SubpathParameters = SubpathParameters(powers: seq<seq<real>>, phases: seq<seq<real>>, offsets: seq<seq<real>>)

  /**
   * acquire_subpath_parameters: the path powers split evenly over M sub-paths,
   * the phases drawn uniformly in [0, 360) (an input here) and the AoD offsets
   * of Table 5.2 repeated for every path. numpy refuses to reshape a power
   * vector whose length is not N.
   */
  function AcquireSubpathParameters(n: nat, m: nat, pathPowers: seq<real>, phases: seq<seq<real>>): (r: Result<SubpathParameters>)
    requires IsMatrix(phases, n, m)
    ensures r.Failure? <==> |pathPowers| != n
    ensures r.Failure? ==> r.fault == ShapeMismatch
    ensures r.Success? ==>
      && IsMatrix(r.value.powers, n, m)
      && r.value.phases == phases
      && IsMatrix(r.value.offsets, n, if m <= 20 then m else 20)
  {
    if |pathPowers| != n then Failure(ShapeMismatch)
    else
      var powers := seq(n, i requires 0 <= i < n =>
        seq(m, k requires 0 <= k < m => pathPowers[i] / m as real));
      Success(SubpathParameters(powers, phases, Tile(Prefix(AodOffsetTable, m), n)))
  }

  /** Each sub-path carries 1/M of its path's power, so the sub-paths of a path add up to the path's power. */
  lemma SubpathPowersSplitPath(n: nat, m: nat, pathPowers: seq<real>, phases: seq<seq<real>>, i: nat)
    requires IsMatrix(phases, n, m) && |pathPowers| == n && i < n && m > 0
    ensures forall k :: 0 <= k < m ==>
      AcquireSubpathParameters(n, m, pathPowers, phases).value.powers[i][k] * m as real == pathPowers[i]
    ensures Sum(AcquireSubpathParameters(n, m, pathPowers, phases).value.powers[i]) == pathPowers[i]
  {
    var row := AcquireSubpathParameters(n, m, pathPowers, phases).value.powers[i];
    var share := pathPowers[i] / m as real;
    assert forall k :: 0 <= k < m ==> row[k] == share;
    MulDivCancel(m as real, pathPowers[i]);
    SumOfCopies(share, row);
  }

  /**
   * Every AoD offset row is the first min(M, 20) entries of the table, the
   * same for all paths, and made of +/- pairs; beyond 20 sub-paths the slice
   * stops at 20 without any error.
   */
  lemma AodOffsetsAreTablePrefix(n: nat, m: nat, pathPowers: seq<real>, phases: seq<seq<real>>)
    requires IsMatrix(phases, n, m) && |pathPowers| == n
    ensures forall i :: 0 <= i < n ==>
      AcquireSubpathParameters(n, m, pathPowers, phases).value.offsets[i] == Prefix(AodOffsetTable, m)
    ensures forall i :: 0 <= i < n ==> PlusMinusPairs(AcquireSubpathParameters(n, m, pathPowers, phases).value.offsets[i])
    ensures m > 20 ==> forall i :: 0 <= i < n ==>
      AcquireSubpathParameters(n, m, pathPowers, phases).value.offsets[i] == AodOffsetTable
  {
    AodTableIsPlusMinusPairs();
    PrefixKeepsPairs(AodOffsetTable, m);
  }

  /** calculate_offset_aoas: the AoA offsets of Table 5.2, first min(M, 20) entries, repeated for every path. */
  function CalculateOffsetAoas(n: nat, m: nat): (r: seq<seq<real>>)
    ensures IsMatrix(r, n, if m <= 20 then m else 20)
    ensures forall i :: 0 <= i < n ==> r[i] <= AoaOffsetTable
  {
    Tile(Prefix(AoaOffsetTable, m), n)
  }

  /** The AoA offset rows are made of +/- pairs and all equal. */
  lemma AoaOffsetsArePairs(n: nat, m: nat)
    ensures forall i :: 0 <= i < n ==> PlusMinusPairs(CalculateOffsetAoas(n, m)[i])
    ensures forall i, j :: 0 <= i < n && 0 <= j < n ==> CalculateOffsetAoas(n, m)[i] == CalculateOffsetAoas(n, m)[j]
  {
    AoaTableIsPlusMinusPairs();
    PrefixKeepsPairs(AoaOffsetTable, m);
  }

  /**
   * associate_subpath: with (N, M) the shape of the base-station offsets, row
   * n of the result is row n of the mobile-station offsets read through the
   * permutation drawn for path n. A mobile-station array with fewer rows or
   * columns makes numpy raise IndexError.
   */
  function AssociateSubpath(n: nat, m: nat, msOffsets: seq<seq<real>>, perms: seq<seq<nat>>): (r: Result<seq<seq<real>>>)
    requires |perms| == n && forall i :: 0 <= i < n ==> |perms[i]| == m && IsPermutation(perms[i], m)
    ensures r.Failure? <==> |msOffsets| < n || exists i :: 0 <= i < n && |msOffsets[i]| < m
    ensures r.Failure? ==> r.fault == IndexOutOfRange
    ensures r.Success? ==> IsMatrix(r.value, n, m)
    ensures r.Success? ==> forall i, k :: 0 <= i < n && 0 <= k < m ==>
      perms[i][k] < |msOffsets[i]| && r.value[i][k] == msOffsets[i][perms[i][k]]
  {
    if |msOffsets| < n || exists i :: 0 <= i < n && |msOffsets[i]| < m then Failure(IndexOutOfRange)
    else
      assert forall i :: 0 <= i < n ==> forall k :: 0 <= k < m ==> perms[i][k] < |msOffsets[i]| by {
        forall i | 0 <= i < n {
          PermutationFacts(perms[i], m);
        }
      }
      Success(seq(n, i requires 0 <= i < n => Gather(msOffsets[i], perms[i])))
  }

  /** Re-association only rearranges each row: the offsets of a path stay the same multiset. */
  lemma AssociationPermutesRows(n: nat, m: nat, msOffsets: seq<seq<real>>, perms: seq<seq<nat>>)
    requires |perms| == n && forall i :: 0 <= i < n ==> |perms[i]| == m && IsPermutation(perms[i], m)
    requires IsMatrix(msOffsets, n, m)
    ensures AssociateSubpath(n, m, msOffsets, perms).Success?
    ensures forall i :: 0 <= i < n ==>
      multiset(AssociateSubpath(n, m, msOffsets, perms).value[i]) == multiset(msOffsets[i])
  {
    var r := AssociateSubpath(n, m, msOffsets, perms);
    forall i | 0 <= i < n ensures multiset(r.value[i]) == multiset(msOffsets[i]) {
      assert r.value[i] == Gather(msOffsets[i], perms[i]);
      GatherPermutation(msOffsets[i], perms[i]);
    }
  }

  /**
   * normalize_angle: shift by 180, reduce modulo 360 with Python's float
   * remainder (which takes the sign of the divisor), shift back. The result lies in [-180, 180).
   */
  function NormalizeAngle(a: real): (r: real)
    ensures -180.0 <= r < 180.0
  {
    (a + 180.0) - 360.0 * ((a + 180.0) / 360.0).Floor as real - 180.0
  }

  /** d is a whole number of turns: a multiple of 360 degrees. */
  ghost predicate WholeTurns(d: real) {
    (d / 360.0).Floor as real == d / 360.0
  }

  /** The normalised angle differs from the angle by a whole number of turns. */
  lemma NormalizeAngleCongruent(a: real)
    ensures WholeTurns(NormalizeAngle(a) - a)
  {
    var k := -((a + 180.0) / 360.0).Floor;
    assert NormalizeAngle(a) - a == 360.0 * k as real;
    assert (360.0 * k as real) / 360.0 == k as real;
  }

  /** Whole turns do not change the normalised angle. */
  lemma NormalizeAnglePeriodic(a: real, k: int)
    ensures NormalizeAngle(a + 360.0 * k as real) == NormalizeAngle(a)
  {
    var x := (a + 180.0) / 360.0;
    var y := (a + 360.0 * k as real + 180.0) / 360.0;
    assert y == x + k as real;
    assert y.Floor == x.Floor + k;
  }

  /** Exactly the angles of [-180, 180) are left unchanged. */
  lemma NormalizeAngleFixes(a: real)
    ensures NormalizeAngle(a) == a <==> -180.0 <= a < 180.0
  {
    if -180.0 <= a < 180.0 {
      assert ((a + 180.0) / 360.0).Floor == 0;
    }
  }

  lemma NormalizeAngleIdempotent(a: real)
    ensures NormalizeAngle(NormalizeAngle(a)) == NormalizeAngle(a)
  {
    NormalizeAngleFixes(NormalizeAngle(a));
  }

  /** The normalised angle is 0 exactly at whole turns. */
  lemma NormalizeAngleZero(a: real)
    ensures NormalizeAngle(a) == 0.0 <==> WholeTurns(a)
  {
    var f := ((a + 180.0) / 360.0).Floor;
    assert NormalizeAngle(a) == a - 360.0 * f as real;
    if NormalizeAngle(a) == 0.0 {
      assert a / 360.0 == f as real;
    }
    if WholeTurns(a) {
      var m := (a / 360.0).Floor;
      assert (a + 180.0) / 360.0 == m as real + 0.5;
      assert f == m;
    }
  }

  /** Normalising commutes with negation, except at -180, which negation sends to 180 and normalising back to -180. */
  lemma NormalizeAngleNegation(a: real)
    ensures NormalizeAngle(a) != -180.0 ==> NormalizeAngle(-a) == -NormalizeAngle(a)
    ensures NormalizeAngle(a) == -180.0 ==> NormalizeAngle(-a) == -180.0
  {
    var k := -((a + 180.0) / 360.0).Floor;
    var r := NormalizeAngle(a);
    assert r == a + 360.0 * k as real;
    assert -a == -r + 360.0 * k as real;
    NormalizeAnglePeriodic(-r, k);
    NormalizeAngleFixes(-r);
    if r == -180.0 {
      NormalizeAnglePeriodic(-180.0, 1);
      NormalizeAngleFixes(-180.0);
    }
  }

  /** The angle grids of calculate_angles: one row of M angles per path. */
  datatype PathAngles = PathAngles(aods: seq<seq<real>>, aoas: seq<seq<real>>)

  /** Broadside angle plus path deviation plus sub-path offset, for every sub-path of every path, normalised. */
  function OffsetGrid(theta: real, deltas: seq<real>, offsets: seq<seq<real>>): (g: seq<seq<real>>)
    requires |deltas| == |offsets|
    ensures |g| == |offsets|
    ensures forall i :: 0 <= i < |g| ==> |g[i]| == |offsets[i]|
    ensures forall i, k :: 0 <= i < |g| && 0 <= k < |g[i]| ==> -180.0 <= g[i][k] < 180.0
  {
    seq(|offsets|, i requires 0 <= i < |offsets| =>
      seq(|offsets[i]|, k requires 0 <= k < |offsets[i]| => NormalizeAngle(theta + deltas[i] + offsets[i][k])))
  }

  /**
   * calculate_angles: AoD[n][m] = normalize(theta_BS + delta_AoD[n] + offset[n][m])
   * and likewise for the AoAs. numpy refuses to reshape a deviation vector
   * whose length is not N, and to add it to an offset array of another height.
   */
  function CalculateAngles(n: nat, thetaBs: real, deltaAod: seq<real>, aodOffsets: seq<seq<real>>,
                           thetaMs: real, deltaAoa: seq<real>, aoaOffsets: seq<seq<real>>): (r: Result<PathAngles>)
    ensures r.Failure? <==> |deltaAod| != n || |deltaAoa| != n || |aodOffsets| != n || |aoaOffsets| != n
    ensures r.Failure? ==> r.fault == ShapeMismatch
    ensures r.Success? ==> |r.value.aods| == |r.value.aoas| == n
  {
    if |deltaAod| != n || |deltaAoa| != n || |aodOffsets| != n || |aoaOffsets| != n then Failure(ShapeMismatch)
    else Success(PathAngles(OffsetGrid(thetaBs, deltaAod, aodOffsets), OffsetGrid(thetaMs, deltaAoa, aoaOffsets)))
  }

  /** Every entry of an offset grid is its broadside-plus-deviation-plus-offset angle up to whole turns. */
  lemma OffsetGridUpToTurns(theta: real, deltas: seq<real>, offsets: seq<seq<real>>)
    requires |deltas| == |offsets|
    ensures var g := OffsetGrid(theta, deltas, offsets);
      forall i, k :: 0 <= i < |offsets| && 0 <= k < |offsets[i]| ==> WholeTurns(g[i][k] - (theta + deltas[i] + offsets[i][k]))
  {
    forall i, k | 0 <= i < |offsets| && 0 <= k < |offsets[i]|
      ensures WholeTurns(OffsetGrid(theta, deltas, offsets)[i][k] - (theta + deltas[i] + offsets[i][k]))
    {
      NormalizeAngleCongruent(theta + deltas[i] + offsets[i][k]);
    }
  }

  /**
   * Both grids of calculate_angles: entry [i][k] lies in [-180, 180) and is
   * theta_BS + delta_AoD[i] + offset[i][k] (theta_MS + delta_AoA[i] + offset[i][k]
   * for the AoAs) up to whole turns, with one entry per offset.
   */
  lemma AnglesAreOffsetsUpToTurns(n: nat, thetaBs: real, deltaAod: seq<real>, aodOffsets: seq<seq<real>>,
                                  thetaMs: real, deltaAoa: seq<real>, aoaOffsets: seq<seq<real>>)
    requires |deltaAod| == |deltaAoa| == |aodOffsets| == |aoaOffsets| == n
    ensures var r := CalculateAngles(n, thetaBs, deltaAod, aodOffsets, thetaMs, deltaAoa, aoaOffsets);
      && r.Success?
      && (forall i :: 0 <= i < n ==> |r.value.aods[i]| == |aodOffsets[i]| && |r.value.aoas[i]| == |aoaOffsets[i]|)
      && (forall i, k :: 0 <= i < n && 0 <= k < |aodOffsets[i]| ==>
            -180.0 <= r.value.aods[i][k] < 180.0
            && WholeTurns(r.value.aods[i][k] - (thetaBs + deltaAod[i] + aodOffsets[i][k])))
      && (forall i, k :: 0 <= i < n && 0 <= k < |aoaOffsets[i]| ==>
            -180.0 <= r.value.aoas[i][k] < 180.0
            && WholeTurns(r.value.aoas[i][k] - (thetaMs + deltaAoa[i] + aoaOffsets[i][k])))
  {
    OffsetGridUpToTurns(thetaBs, deltaAod, aodOffsets);
    OffsetGridUpToTurns(thetaMs, deltaAoa, aoaOffsets);
  }

  /** The sector antenna of eq. (4.5-1): 3 dB beamwidth, maximum attenuation and boresight gain. */
  datatype SectorPattern = SectorPattern(theta3dB: real, maxAttenuation: real, gainDbi: real)

  ghost predicate ValidPattern(p: SectorPattern) {
    p.theta3dB > 0.0 && p.maxAttenuation > 0.0
  }

  /** The pattern of calculate_gains: '3' and '6' sectors are the only counts accepted. */
  function SectorPatternFor(sectors: string): (r: Result<SectorPattern>)
    ensures r.Failure? <==> sectors != "3" && sectors != "6"
    ensures r.Failure? ==> r.fault == SectorCountInvalid
    ensures r.Success? ==> ValidPattern(r.value)
  {
    if sectors == "3" then Success(SectorPattern(70.0, 20.0, 14.0))
    else if sectors == "6" then Success(SectorPattern(35.0, 23.0, 17.0))
    else Failure(SectorCountInvalid)
  }

  function Min(a: real, b: real): real {
    if a <= b then a else b
  }

  /** A(theta) = -min(12 (theta / theta_3dB)^2, A_m), after normalising theta. */
  function Attenuation(p: SectorPattern, angle: real): (r: real)
    requires ValidPattern(p)
    ensures -p.maxAttenuation <= r <= 0.0
  {
    var u := NormalizeAngle(angle) / p.theta3dB;
    -Min(12.0 * (u * u), p.maxAttenuation)
  }

  /** No attenuation at boresight or any whole number of turns from it. */
  lemma AttenuationAtBoresight(p: SectorPattern, k: int)
    requires ValidPattern(p)
    ensures Attenuation(p, 360.0 * k as real) == 0.0
  {
    NormalizeAnglePeriodic(0.0, k);
    NormalizeAngleFixes(0.0);
    assert 0.0 + 360.0 * k as real == 360.0 * k as real;
  }

  /** The pattern is symmetric about boresight. */
  lemma AttenuationSymmetric(p: SectorPattern, angle: real)
    requires ValidPattern(p)
    ensures Attenuation(p, -angle) == Attenuation(p, angle)
  {
    NormalizeAngleNegation(angle);
    var x, y := NormalizeAngle(angle), NormalizeAngle(-angle);
    assert y == x || y == -x;
    assert (y / p.theta3dB) * (y / p.theta3dB) == (x / p.theta3dB) * (x / p.theta3dB);
  }

  /** Half the 3 dB beamwidth off boresight, both patterns attenuate by exactly 3 dB. */
  lemma ThreeDbAtHalfBeamwidth(sectors: string)
    requires sectors == "3" || sectors == "6"
    ensures var p := SectorPatternFor(sectors).value;
      Attenuation(p, p.theta3dB / 2.0) == -3.0
  {
    var p := SectorPatternFor(sectors).value;
    NormalizeAngleFixes(p.theta3dB / 2.0);
  }

  /**
   * calculate_gains in dB: attenuation plus the boresight gain, for every
   * angle of the grid. The conversions to linear scale and back are left out.
   */
  function CalculateGainsDb(angles: seq<seq<real>>, sectors: string): (r: Result<seq<seq<real>>>)
    ensures r.Failure? <==> sectors != "3" && sectors != "6"
    ensures r.Failure? ==> r.fault == SectorCountInvalid
    ensures r.Success? ==> |r.value| == |angles| && forall i :: 0 <= i < |angles| ==> |r.value[i]| == |angles[i]|
    ensures r.Success? ==> forall i, k :: 0 <= i < |angles| && 0 <= k < |angles[i]| ==>
      var p := SectorPatternFor(sectors).value;
      p.gainDbi - p.maxAttenuation <= r.value[i][k] <= p.gainDbi
  {
    match SectorPatternFor(sectors)
    case Failure(f) => Failure(f)
    case Success(p) =>
      Success(seq(|angles|, i requires 0 <= i < |angles| =>
        seq(|angles[i]|, k requires 0 <= k < |angles[i]| => Attenuation(p, angles[i][k]) + p.gainDbi)))
  }

  lemma SquarePositive(u: real)
    ensures u * u >= 0.0
    ensures u != 0.0 ==> u * u > 0.0
  {
    if u < 0.0 {
      var v := -u;
      assert v * v > 0.0;
      assert u * u == v * v;
    }
  }

  /** The pattern attenuates nothing exactly at whole turns from boresight. */
  lemma AttenuationZero(p: SectorPattern, angle: real)
    requires ValidPattern(p)
    ensures Attenuation(p, angle) == 0.0 <==> WholeTurns(angle)
  {
    var x := NormalizeAngle(angle);
    var u := x / p.theta3dB;
    SquarePositive(u);
    assert u == 0.0 <==> x == 0.0 by {
      MulDivCancel(p.theta3dB, x);
    }
    NormalizeAngleZero(angle);
  }

  /** The gain is the boresight gain exactly where the angle is a whole number of turns, and below it elsewhere. */
  lemma GainPeaksExactlyAtBoresight(angles: seq<seq<real>>, sectors: string, i: nat, k: nat)
    requires sectors == "3" || sectors == "6"
    requires i < |angles| && k < |angles[i]|
    ensures var p := SectorPatternFor(sectors).value;
      var g := CalculateGainsDb(angles, sectors).value[i][k];
      g <= p.gainDbi && (g == p.gainDbi <==> WholeTurns(angles[i][k]))
  {
    var p := SectorPatternFor(sectors).value;
    assert CalculateGainsDb(angles, sectors).value[i][k] == Attenuation(p, angles[i][k]) + p.gainDbi;
    AttenuationZero(p, angles[i][k]);
  }

  /** Half the 3 dB beamwidth to either side of boresight, the gain is 3 dB below the boresight gain. */
  lemma GainThreeDbDownAtHalfBeamwidth(angles: seq<seq<real>>, sectors: string, i: nat, k: nat)
    requires sectors == "3" || sectors == "6"
    requires i < |angles| && k < |angles[i]|
    requires var w := SectorPatternFor(sectors).value.theta3dB / 2.0;
      angles[i][k] == w || angles[i][k] == -w
    ensures CalculateGainsDb(angles, sectors).value[i][k] == SectorPatternFor(sectors).value.gainDbi - 3.0
  {
    var p := SectorPatternFor(sectors).value;
    ThreeDbAtHalfBeamwidth(sectors);
    AttenuationSymmetric(p, p.theta3dB / 2.0);
    assert CalculateGainsDb(angles, sectors).value[i][k] == Attenuation(p, angles[i][k]) + p.gainDbi;
  }
}
