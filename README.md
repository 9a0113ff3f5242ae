# A Dafny model of the Sama MIMO channel simulator core

The simulator builds a geometric MIMO channel between base stations and
mobile users. It draws per-path delays, powers and departure and arrival
angles, splits every path into subpaths, weights them by a sector antenna
pattern, and finally distributes a transmit-power budget over the channel's
streams by water-filling. This project models the exact-arithmetic logic of
that pipeline in Dafny and proves what it guarantees. Every random draw and
every transcendental value (`exp`, `log`, powers of ten) is an input of the
model. Arithmetic is on Dafny's `real`.

Modules, one per source file of the core:

- `Allocation` (allocation_utilities.py). `water_filling` as imperative
  Dafny: a `for` loop over the rows of a fresh `array2`, a `while` loop that
  lowers the water level, and the write-back through the sort permutation.
  Each method is proved against specification functions (`RowAllocation`,
  `SettledLevel`), and the lemmas state the properties of those functions.
  Also `uniform_allocation`.
- `Subpaths` (subpath_utilities.py). The two 20-entry offset tables of 3GPP
  TR 25.996 Table 5.2 and their slicing, the even split of path power over
  subpaths, per-path re-association by permutations, angle normalisation,
  the angle grids, and the sector antenna pattern of section 4.5 of 3GPP TR
  25.996 in dB.
- `Angles` (angles_utilities.py). `calculate_aod`: the scaled draws sorted
  by absolute value, and the permutation that sorts them.
- `Delays` (delay.py). Delays sorted and anchored at the first arrival.
- `Powers` (power_n.py). Per-path weights normalised to sum to 1.
- `Simulator` (mimo_simulator.py).
  - `PathInfo` is a datatype; `ChannelData` and `MIMOSimulator` are classes
    whose methods update their path list and channel list.
  - `run_mimo` is covered in two parts: the reordering of delays and powers
    by the AoD permutation, and the aggregate of the per-path allocations.
- `Scenarios` (Environment.py, with the field record of comsys.py). The
  scenario table and its permissive fallback, and the statistics each
  scenario class fixes for "MIMO".
- `Sequences`, `Sorting` and `Wrappers` are shared helpers:
  - sums;
  - gathers through an index sequence, which is numpy's fancy indexing;
  - permutations;
  - a stable argsort;
  - `Option` and `Result`, where `Fault` names the exception the source
    would raise.

Behaviour of the code that the model keeps as written:

- Zero-gain streams.
  - Textbook water-filling treats a stream of zero gain as having an
    infinite inverse SNR, so it receives nothing.
  - In the code such a stream keeps inverse SNR 0, sorts first and receives
    the largest share (`Allocation.ZeroGainGetsLargestShare`).
  - `run_mimo` feeds `water_filling` the rows of a rectangular diagonal
    matrix, so every stream off the diagonal is such a zero-gain stream.
- Lowering the water level.
  - Textbook water-filling spreads the excess only over the streams still
    above zero.
  - The code always divides the excess by the full stream count. Each pass
    therefore only shrinks the excess, and in exact arithmetic the loop
    need not end (`Allocation.NeverSettlesInExactArithmetic`).
  - The model bounds it by a `fuel` count of passes.
  - A row whose loop ends by itself spends exactly the budget; a row that
    runs out of fuel spends more.
  - With a zero budget, the loop ends by itself, allocating nothing, only
    for a row whose inverse SNRs are all equal; every other row keeps a
    positive total after any number of passes
    (`Allocation.ZeroBudgetSettlesIffEven`). So "a zero budget gives zero
    allocations" (`Allocation.ZeroBudgetAllocatesNothing`) holds in exact
    arithmetic only for such trivial rows.
- More than 20 subpaths. Table 5.2 of 3GPP TR 25.996 lists 20 subpath
  offsets, and the docstring of `calculate_offset_aoas` gives 20 as the
  usual M. For M > 20 the code's slice silently returns all 20 entries.
- The range of `normalize_angle`. Its docstring says [-180, 180], but the
  result lies in [-180, 180).
- The aggregate allocation. The code sums the per-path allocation
  matrices, so the aggregate spends the number of paths times what one
  path spends, not the power budget (`Simulator.AggregateTotal`).

## Model

| member | source | states |
|---|---|---|
| Allocation.InverseSnr | mimo_simulator/allocation_utilities.py:20-22 | a positive gain g gives the r with r * g = noise; any other gain gives 0 |
| Allocation.InverseSnrs | mimo_simulator/allocation_utilities.py:20-22 | one inverse SNR per stream of the row, stream by stream |
| Allocation.Clip | mimo_simulator/allocation_utilities.py:28 | one depth per stream, non-negative, at least level - s[k], and either 0 or exactly level - s[k] |
| Allocation.UnclippedIsLinear | mimo_simulator/allocation_utilities.py:27-33 | without clipping, the depths below a level L add up to n * L - sum of the inverse SNRs |
| Allocation.InitialLevel | mimo_simulator/allocation_utilities.py:27 | n times the first level equals P plus the sum of the inverse SNRs |
| Allocation.Lower | mimo_simulator/allocation_utilities.py:31-32 | n times the drop of the level equals the excess of the clipped total over P |
| Allocation.SortedInverseSnrs | mimo_simulator/allocation_utilities.py:24-25 | the row's inverse SNRs rearranged into ascending order |
| Allocation.FinalLevel | mimo_simulator/allocation_utilities.py:27-33 | the loop ends at or below the first level, with a clipped total of at least P |
| Allocation.SortedAllocation | mimo_simulator/allocation_utilities.py:28-33 | the depths at the final level, in sorted order: one per stream, non-negative, adding up to at least P |
| Allocation.RowAllocation | mimo_simulator/allocation_utilities.py:35 | the sorted depths written back to their streams: a rearrangement of them |
| Allocation.InverseSnrNonNegative | mimo_simulator/allocation_utilities.py:20-22 | with a non-negative noise power, every inverse SNR is non-negative: noise/gain for a positive gain, 0 otherwise |
| Allocation.ClipSumBound | mimo_simulator/allocation_utilities.py:27-28 | clipping at zero only adds: the clipped total is at least the unclipped total, and equals it when no stream is clipped |
| Allocation.ClipSumStrict | mimo_simulator/allocation_utilities.py:27-28 | one clipped stream makes the clipped total strictly exceed the unclipped total |
| Allocation.ClipSumLipschitz | mimo_simulator/allocation_utilities.py:28-33 | raising the water level never lowers the clipped total, and raises it by at most the rise of the unclipped total |
| Allocation.InitialLevelSpendsBudget | mimo_simulator/allocation_utilities.py:27 | at the level (P + sum of inverse SNRs) / n the unclipped depths add up to exactly P |
| Allocation.InitialLevelCoversBudget | mimo_simulator/allocation_utilities.py:27-28 | the first clipped allocation totals at least P, and exactly P if and only if no stream lies above the level |
| Allocation.LowerDropsUnclipped | mimo_simulator/allocation_utilities.py:31-32 | lowering the level by excess / n lowers the unclipped total by exactly the excess |
| Allocation.LowerStep | mimo_simulator/allocation_utilities.py:30-33 | a pass made while over budget strictly lowers the level and leaves the clipped total still at least P |
| Allocation.SettledLevel | mimo_simulator/allocation_utilities.py:30-33 | the loop never raises the level, and a total that started at least P stays at least P |
| Allocation.SettledLevelAntitone | mimo_simulator/allocation_utilities.py:30-33 | one more pass lowers the final level strictly while over budget and leaves it unchanged once within budget |
| Allocation.RowAllocationAt | mimo_simulator/allocation_utilities.py:24-35 | stream j of the row receives max(final level - inverse SNR of j, 0), at its own position |
| Allocation.RowSumIsSortedSum | mimo_simulator/allocation_utilities.py:35 | writing the sorted allocation back to the streams keeps the row total |
| Allocation.RowAllocationFacts | mimo_simulator/allocation_utilities.py:28-33 | every allocated power is non-negative, the row total is at least P, and exactly P when the loop ended by itself |
| Allocation.ZeroBudgetAllocatesNothing | mimo_simulator/allocation_utilities.py:27-33 | with budget 0, a row whose loop ended gives every stream 0 |
| Allocation.ZeroBudgetStaysAboveFloor | mimo_simulator/allocation_utilities.py:30-33 | with budget 0 and unequal inverse SNRs, a level above the smallest inverse SNR stays above it after any number of passes |
| Allocation.EvenRowSettles | mimo_simulator/allocation_utilities.py:27-33 | with budget 0 and equal inverse SNRs, the loop ends at once with nothing allocated |
| Allocation.UnevenRowNeverSettles | mimo_simulator/allocation_utilities.py:27-33 | with budget 0 and unequal inverse SNRs, the clipped total stays positive after any number of passes |
| Allocation.EvenRowSortsEven | mimo_simulator/allocation_utilities.py:20-25 | equal inverse SNRs sort to a constant sequence |
| Allocation.UnevenRowSortsUneven | mimo_simulator/allocation_utilities.py:20-25 | two streams with different inverse SNRs put some sorted value above the smallest |
| Allocation.ZeroBudgetSettlesIffEven | mimo_simulator/allocation_utilities.py:20-35 | with budget 0, a row's loop ends by itself exactly when all its inverse SNRs are equal |
| Allocation.OnePassLowersLevel | mimo_simulator/allocation_utilities.py:30-33 | each extra pass lowers the water level strictly while over budget, and not at all once within budget |
| Allocation.OnePassMore | mimo_simulator/allocation_utilities.py:30-33 | an extra pass never increases any stream's allocation and changes nothing once the row is within budget |
| Allocation.LowerLevelGivesLess | mimo_simulator/allocation_utilities.py:28-33 | a lower final level gives every stream at most as much power |
| Allocation.StrongerStreamGetsMore | mimo_simulator/allocation_utilities.py:20-35 | a stream whose inverse SNR is no larger than another's receives at least as much power |
| Allocation.UnclippedRowIsClosedForm | mimo_simulator/allocation_utilities.py:27-30 | when the initial level clips nothing, the loop never runs and stream k gets exactly L0 minus its inverse SNR |
| Allocation.ZeroGainSortsFirst | mimo_simulator/allocation_utilities.py:20-25 | with positive noise, a zero-gain stream makes the smallest sorted inverse SNR 0 |
| Allocation.ZeroGainGetsLargestShare | mimo_simulator/allocation_utilities.py:20-35 | a zero-gain stream receives at least as much power as every other stream of its row |
| Allocation.ExampleInverseSnrs | mimo_simulator/allocation_utilities.py:20-25 | the row [1, 0.1] with noise 1 has sorted inverse SNRs [1, 10] |
| Allocation.HalvingLevel | mimo_simulator/allocation_utilities.py:30-33 | on inverse SNRs [1, 10] with budget 1, the level stays in (2, 10] and the row stays over budget after any number of passes |
| Allocation.NeverSettlesInExactArithmetic | mimo_simulator/allocation_utilities.py:30-33 | the row [1, 0.1] with noise 1 and budget 1 is still over budget after any number of passes |
| Allocation.PassAdvances | mimo_simulator/allocation_utilities.py:31-33 | one pass of the loop hands the remaining passes a level that settles where the whole loop settles |
| Allocation.LowerUntilWithinBudget | mimo_simulator/allocation_utilities.py:30-33 | the while loop leaves the level the specification function settles on, with the allocation clipped at that level |
| Allocation.WaterFillRow | mimo_simulator/allocation_utilities.py:20-33 | one row: the argsort of the inverse SNRs and the allocation in that order when the loop ends |
| Allocation.WriteRow | mimo_simulator/allocation_utilities.py:35 | the sorted allocation lands at the positions the permutation names, and every other row is unchanged |
| Allocation.WaterFilling | mimo_simulator/allocation_utilities.py:16-37 | a fresh rows x cols array whose row i is the water-filling allocation of input row i, independently of the other rows |
| Allocation.UniformAllocation | mimo_simulator/allocation_utilities.py:40-47 | division by zero exactly when there are no rows or no columns; otherwise a rows x cols matrix |
| Allocation.UniformSpendsBudget | mimo_simulator/allocation_utilities.py:44 | every entry is P / (rows * cols) and the entries add up to P |
| Sorting.ArgSort | mimo_simulator/allocation_utilities.py:24 | the result is a permutation of 0..n-1 that lists the keys in ascending order |
| Sorting.Sort | mimo_simulator/delay.py:8 | the sorted values are ascending and a rearrangement of the input |
| Sorting.Unsort | mimo_simulator/allocation_utilities.py:35 | value k lands at position order[k], and the result is a rearrangement of the values |
| Sequences.GatherPermutation | mimo_simulator/allocation_utilities.py:25 | reading a sequence through a permutation keeps its multiset |
| Sequences.SumPermutation | mimo_simulator/allocation_utilities.py:35 | rearranging a sequence keeps its sum |
| Subpaths.AodTableIsPlusMinusPairs | mimo_simulator/subpath_utilities.py:21-22 | the AoD offset table has 20 entries, and each odd entry is the negation of the one before it |
| Subpaths.AoaTableIsPlusMinusPairs | mimo_simulator/subpath_utilities.py:56-57 | the same holds for the AoA offset table |
| Subpaths.Prefix | mimo_simulator/subpath_utilities.py:25 | the slice is a prefix of the table, with min(M, 20) entries, so no error for M > 20 |
| Subpaths.PrefixKeepsPairs | mimo_simulator/subpath_utilities.py:25 | a prefix of a table of plus-minus pairs still has each odd entry negating the one before it |
| Subpaths.Tile | mimo_simulator/subpath_utilities.py:35 | N identical copies of the row |
| Subpaths.AcquireSubpathParameters | mimo_simulator/subpath_utilities.py:4-37 | a shape error when there are not N path powers; otherwise N x M powers, the phases unchanged, and N x min(M, 20) offsets |
| Subpaths.SubpathPowersSplitPath | mimo_simulator/subpath_utilities.py:29 | every subpath power of path n is M times smaller than the path's power, and row n adds up to that power |
| Subpaths.AodOffsetsAreTablePrefix | mimo_simulator/subpath_utilities.py:21-35 | every AoD offset row is the first min(M, 20) table entries, made of plus-minus pairs, and all 20 entries when M > 20 |
| Subpaths.CalculateOffsetAoas | mimo_simulator/subpath_utilities.py:40-64 | N x min(M, 20) offsets, each row a prefix of the AoA table |
| Subpaths.AoaOffsetsArePairs | mimo_simulator/subpath_utilities.py:56-62 | every AoA offset row is made of plus-minus pairs, and all rows are equal |
| Subpaths.AssociateSubpath | mimo_simulator/subpath_utilities.py:67-89 | an index error exactly when an MS offset row is missing or too short; otherwise an N x M matrix whose row n is MS row n read through permutation n |
| Subpaths.AssociationPermutesRows | mimo_simulator/subpath_utilities.py:78-86 | for N x M offsets the association succeeds and keeps the multiset of every row |
| Subpaths.NormalizeAngle | mimo_simulator/subpath_utilities.py:123-127 | the result lies in [-180, 180), half-open |
| Subpaths.NormalizeAngleCongruent | mimo_simulator/subpath_utilities.py:127 | the result differs from the angle by a whole number of turns |
| Subpaths.NormalizeAnglePeriodic | mimo_simulator/subpath_utilities.py:127 | adding any whole number of turns does not change the result |
| Subpaths.NormalizeAngleFixes | mimo_simulator/subpath_utilities.py:127 | an angle is left unchanged if and only if it lies in [-180, 180) |
| Subpaths.NormalizeAngleIdempotent | mimo_simulator/subpath_utilities.py:127 | normalising twice is normalising once |
| Subpaths.NormalizeAngleZero | mimo_simulator/subpath_utilities.py:127 | the normalised angle is 0 exactly at whole turns |
| Subpaths.NormalizeAngleNegation | mimo_simulator/subpath_utilities.py:127 | normalisation commutes with negation, except at -180, which maps to itself |
| Subpaths.OffsetGrid | mimo_simulator/subpath_utilities.py:108-119 | one angle per offset, shaped like the offsets, each in [-180, 180) |
| Subpaths.CalculateAngles | mimo_simulator/subpath_utilities.py:92-121 | a shape error exactly when a deviation or offset array does not have N rows; otherwise N rows of AoDs and of AoAs |
| Subpaths.OffsetGridUpToTurns | mimo_simulator/subpath_utilities.py:112-119 | entry [n][m] of a grid differs from broadside + delta[n] + offset[n][m] by whole turns |
| Subpaths.AnglesAreOffsetsUpToTurns | mimo_simulator/subpath_utilities.py:108-121 | both grids have one entry per offset; AoD[n][m] and AoA[n][m] lie in [-180, 180) and differ from theta_BS + delta_AoD[n] + offset[n][m], respectively theta_MS + delta_AoA[n] + offset[n][m], by whole turns |
| Subpaths.SectorPatternFor | mimo_simulator/subpath_utilities.py:133-142 | a sector-count error unless the count is the string "3" or "6"; otherwise a pattern with positive beamwidth and attenuation |
| Subpaths.Attenuation | mimo_simulator/subpath_utilities.py:145-148 | the attenuation -min(12 (angle / beamwidth)^2, A_m) lies in [-A_m, 0] |
| Subpaths.AttenuationAtBoresight | mimo_simulator/subpath_utilities.py:145-148 | the attenuation is 0 at every whole number of turns |
| Subpaths.AttenuationSymmetric | mimo_simulator/subpath_utilities.py:145-148 | the attenuation is the same at angle and -angle |
| Subpaths.ThreeDbAtHalfBeamwidth | mimo_simulator/subpath_utilities.py:133-148 | half a beamwidth off boresight the attenuation is 3 dB for both sector counts |
| Subpaths.AttenuationZero | mimo_simulator/subpath_utilities.py:145-148 | the pattern attenuates nothing exactly at whole turns from boresight |
| Subpaths.GainPeaksExactlyAtBoresight | mimo_simulator/subpath_utilities.py:130-155 | each gain of the grid is at most the boresight gain, and equals it exactly where the angle is a whole number of turns |
| Subpaths.GainThreeDbDownAtHalfBeamwidth | mimo_simulator/subpath_utilities.py:130-155 | at half the 3 dB beamwidth to either side, the grid's gain is 3 dB below the boresight gain |
| Subpaths.CalculateGainsDb | mimo_simulator/subpath_utilities.py:130-155 | a sector-count error exactly when the count is not "3" or "6"; otherwise gains shaped like the angles, each within [gain_dBi - A_m, gain_dBi] |
| Angles.ScaledDraws | mimo_simulator/angles_utilities.py:7-10 | draw i scaled by r_AS * sigma_AS |
| Angles.Magnitudes | mimo_simulator/angles_utilities.py:19 | the absolute value of each value, the sort key of np.argsort |
| Angles.CalculateAod | mimo_simulator/angles_utilities.py:3-28 | the order is a permutation of 0..N-1; value i is the scaled draw at order[i]; the values are non-decreasing in absolute value |
| Angles.AodValuesAreScaledDraws | mimo_simulator/angles_utilities.py:7-25 | the returned values are exactly the draws scaled by r_AS * sigma_AS, rearranged |
| Angles.FirstAodIsSmallest | mimo_simulator/angles_utilities.py:19-20 | the first returned deviation is the smallest in absolute value of all scaled draws |
| Delays.Shift | mimo_simulator/delay.py:9 | each shifted delay plus the shift gives back the delay |
| Delays.RawDelays | mimo_simulator/delay.py:6-7 | one raw delay per draw |
| Delays.Delay | mimo_simulator/delay.py:3-12 | an index error exactly when there are no paths; otherwise one delay per path, ascending, the first 0 and all non-negative |
| Delays.SortedHeadIsMinimum | mimo_simulator/delay.py:8 | the first sorted delay is one of the raw delays and no larger than any of them |
| Delays.DelaysAreRawMinusEarliest | mimo_simulator/delay.py:8-9 | the delays are the raw delays minus the earliest raw delay, rearranged |
| Delays.DelayGapsAreSortedGaps | mimo_simulator/delay.py:8-9 | consecutive delays are as far apart as consecutive sorted raw delays |
| Delays.RawDelaysNonNegative | mimo_simulator/delay.py:7 | with r_DS * sigma_DS >= 0 and log-draws <= 0, every raw delay is non-negative |
| Powers.DecayExponents | mimo_simulator/power_n.py:5-8 | one exponent per path, and the first path's exponent is 0 |
| Powers.PathWeights | mimo_simulator/power_n.py:5-13 | one weight per path, each positive |
| Powers.Normalized | mimo_simulator/power_n.py:15 | every normalised weight lies in (0, 1] |
| Powers.NormalizedSumsToOne | mimo_simulator/power_n.py:15-16 | normalised positive weights add up to exactly 1 |
| Powers.NormalizedKeepsRatios | mimo_simulator/power_n.py:15 | normalisation keeps the ratio between any two weights |
| Powers.CalculatePower | mimo_simulator/power_n.py:3-18 | an index error exactly when there are no paths; otherwise one power per path, each in (0, 1] |
| Powers.PowersSumToOne | mimo_simulator/power_n.py:15-16 | the path powers add up to exactly 1 |
| Powers.PowersKeepRatios | mimo_simulator/power_n.py:15 | the ratio of two path powers is the ratio of their unnormalised weights |
| Powers.FirstPathUndecayed | mimo_simulator/power_n.py:5-8 | the first path's weight is exp(0) times its shadowing factor: no decay |
| Simulator.PathInfo.Summarize | mimo_simulator/mimo_simulator.py:32-41 | the summary holds the four stored fields, unchanged |
| Simulator.FromRecord | mimo_simulator/mimo_simulator.py:111-116 | the path built from a record carries its delay, power, AoD and AoA unchanged |
| Simulator.PathRoundTrip | mimo_simulator/mimo_simulator.py:27-41 | building a path from a record and summarising it gives the record back, and the other way round |
| Simulator.ChannelData.constructor | mimo_simulator/mimo_simulator.py:53-55 | a new channel has the given ids and no paths |
| Simulator.ChannelData.AddPath | mimo_simulator/mimo_simulator.py:57-61 | the path is appended at the end and the earlier paths stay as they were |
| Simulator.ChannelData.Summarize | mimo_simulator/mimo_simulator.py:63-72 | the ids unchanged, and one path summary per stored path, in order |
| Simulator.MIMOSimulator.constructor | mimo_simulator/mimo_simulator.py:75-91 | the parameters are stored and the channel list starts empty |
| Simulator.MIMOSimulator.AddChannelData | mimo_simulator/mimo_simulator.py:93-96 | the channel is appended and nothing else changes |
| Simulator.MIMOSimulator.IntegrateChannels | mimo_simulator/mimo_simulator.py:98-119 | the old channels are dropped; afterwards there is one fresh channel per input record, in input order, no two the same object, with the record's ids and its paths in order, field for field |
| Simulator.ReorderPaths | mimo_simulator/mimo_simulator.py:141-142 | delays and powers are read through the same permutation, so every position holds one path's delay and that same path's power |
| Simulator.ReorderKeepsPaths | mimo_simulator/mimo_simulator.py:141-142 | the reordering keeps the multiset of delays, the multiset of powers and the total power |
| Simulator.OrderedPathsStayNormalised | mimo_simulator/mimo_simulator.py:136-142 | after the delay, power and AoD steps and the reordering, the powers add up to 1, each lies in (0, 1], and the delays are non-negative and include 0 |
| Simulator.AggregateAllocation | mimo_simulator/mimo_simulator.py:189 | the aggregate has the shape of the per-path allocations |
| Simulator.AggregateIsEntrySum | mimo_simulator/mimo_simulator.py:189 | each aggregate entry is the sum over paths of that entry |
| Simulator.AggregateTotalIsSumOfTotals | mimo_simulator/mimo_simulator.py:189 | the aggregate's total is the sum of the paths' totals |
| Simulator.AggregateTotal | mimo_simulator/mimo_simulator.py:171-189 | when every path's allocation totals T, the aggregate totals (number of paths) * T |
| Scenarios.Environment | mimo_simulator/Environment.py:4-36 | C is absent exactly for "Urban Micro"; the three named scenarios have h_ms = 1.5 and positive h_bs, d and R; any other name never fails and takes each field from the caller, or 0 |
| Scenarios.PresetIgnoresOverrides | mimo_simulator/Environment.py:6-27 | a named scenario's geometry does not depend on the caller's values |
| Scenarios.UnknownScenarioDefaultsToZero | mimo_simulator/Environment.py:30-35 | an unknown name with no values given yields all zeros, with C = 0 |
| Scenarios.MacroCellsDiffer | mimo_simulator/Environment.py:6-19 | the two macro scenarios share h_bs and d; Urban Macro has the larger C and the smaller radius |
| Scenarios.WithSystem | mimo_simulator/Environment.py:39-56 | the scenario's geometry, the system type kept, and the MIMO constants in place of the caller's statistics exactly when the type is "MIMO" |
| Scenarios.SuburbMacro | mimo_simulator/Environment.py:39-56 | the Suburban Macro geometry; with "MIMO" the fixed statistics (r_DS 1.4, r_AS 1.2, sigma_SH 8, ...), otherwise the caller's |
| Scenarios.UrbMacro | mimo_simulator/Environment.py:59-74 | the Urban Macro geometry; with "MIMO" the fixed statistics (r_DS 1.7, r_AS 1.3, sigma_SH 8, ...), otherwise the caller's |
| Scenarios.UrbMicro | mimo_simulator/Environment.py:76-90 | the Urban Micro geometry with no C; with "MIMO" the fixed statistics (sigma_SH 10, r_DS = r_AS = 0, ...), otherwise the caller's |
| Scenarios.MimoSpreadRatios | mimo_simulator/Environment.py:43-88 | under "MIMO" both macro scenarios have positive r_DS and r_AS, and Urban Micro has both 0 |
| Scenarios.GeometryIgnoresSystem | mimo_simulator/Environment.py:39-90 | the system type and statistics never change a scenario's geometry |

## Left out

- Random draws. The model takes every random value as an input: the uniform
  draws of `delay` (as their logarithms), the normals of `calculate_aod`,
  the subpath phases, the per-path association permutations and the
  shadowing factors.
- Transcendental functions. `exp` in `calculate_power` is a function
  parameter assumed positive. The powers of ten and `log10` in
  `calculate_gains` and `run_mimo` are not modelled: gains stay in dB.
- Floating point. Arithmetic is exact, with no rounding, infinities or NaN.
- Other files. channel_coefficients.py, correlation_parameters.py,
  capacity_utilities.py, pathloss.py and distance_utility.py are not part
  of this model.
- `calculate_aoa` is not part of this model.
- `run_mimo`. The model leaves out:
  - the SVD;
  - the YAML import;
  - the path-loss scaling;
  - the capacity sums;
  - the `print` calls.
  Only the permutation reorder and the aggregate sum are modelled.
- numpy broadcasting. The per-base-station arrays sigma_DS and sigma_AS
  become single reals. Path arrays become sequences of length N in place
  of N x 1 columns.
- Allocation.WaterFilling:
  - The row loop is bounded by `fuel` passes. The source's loop ends only
    through float rounding, and a row that runs out of fuel is left over
    budget.
  - A row with no columns gets an empty allocation. numpy would compute an
    infinite level there.
  - With a negative budget, the source loop need not end; the model stops
    it at the fuel bound.
- Sorting.ArgSort: stable insertion order among equal keys. numpy's default
  argsort does not promise which of two equal keys comes first, so the
  contract only states order and permutation.
- Powers.CalculatePower:
  - It requires r_DS * sigma_DS to be nonzero. With zero, numpy produces
    infinite or NaN powers that exact reals cannot represent. Urban Micro
    under "MIMO" sets r_DS to 0 (`Scenarios.MimoSpreadRatios`).
  - It requires positive shadowing factors, which powers of ten always are.
- Subpaths.CalculateGainsDb: returns the total gain in dB, where the source
  returns the linear gain ten to the power of one tenth of it.
- Subpaths.CalculateAngles: numpy broadcasting of mismatched heights is
  not modelled. With N = 1 the one deviation is added to an offset array of
  any height, and a one-row offset array is repeated for all N paths; the
  model reports a shape error for both.
- Subpaths.AcquireSubpathParameters and Subpaths.CalculateOffsetAoas:
  negative M is not modelled, because Python's slice with a negative end
  counts from the back.
- Simulator.MIMOSimulator.constructor: the model takes the parameter record
  directly. It leaves out the dictionary lookups, their KeyError, and the
  `float` conversions.
- Simulator.MIMOSimulator.IntegrateChannels:
  - Input records are typed. A missing key, which would raise KeyError, is
    not modelled.
  - The source empties the existing list object in place. Another holder
    of that list would see it emptied. The model assigns a new sequence and
    does not capture that aliasing.
- Simulator.AggregateAllocation: over zero paths numpy returns the scalar 0.
  The model returns a zero matrix.
- Scenarios.Environment: Python's mix of integers and floats, and the
  warning `print` of the fallback, are not modelled.
