/**
 * The containers of mimo_simulator.py and the exact-arithmetic glue of
 * run_mimo: path records, the channel list that integrate_channels rebuilds,
 * the reordering of delays and powers by the AoD permutation, and the sum of
 * the per-path power allocations.
 */
module Simulator {
  import opened Wrappers
  import opened Sequences
  import opened Sorting
  import Delays
  import Powers
  import Angles

  /** The dictionary PathInfo.summarize returns and integrate_channels reads for one path. */
  datatype PathRecord = PathRecord(delay: real, power: real, aodAngle: real, aoaAngle: real)

  /** PathInfo: the parameters of one propagation path, fixed at construction. */
  datatype PathInfo = PathInfo(delay: real, power: real, aodAngle: real, aoaAngle: real) {
    /** summarize: the four stored fields under their own names. */
    function Summarize(): (d: PathRecord)
      ensures d.delay == delay && d.power == power && d.aodAngle == aodAngle && d.aoaAngle == aoaAngle
    {
      PathRecord(delay, power, aodAngle, aoaAngle)
    }
  }

  /** The path integrate_channels builds from one path record, field by field. */
  function FromRecord(r: PathRecord): (p: PathInfo)
    ensures p.delay == r.delay && p.power == r.power && p.aodAngle == r.aodAngle && p.aoaAngle == r.aoaAngle
  {
    PathInfo(r.delay, r.power, r.aodAngle, r.aoaAngle)
  }

  /** Building a path from a record and summarising it gives the record back, and the other way round. */
  lemma PathRoundTrip(r: PathRecord, p: PathInfo)
    ensures FromRecord(r).Summarize() == r
    ensures FromRecord(p.Summarize()) == p
  {
  }

  /** The dictionary ChannelData.summarize returns, and the shape of one entry of ran_data['channels']. */
  datatype ChannelRecord = ChannelRecord(bsId: int, ueId: int, paths: seq<PathRecord>)

  /** ChannelData: the paths between one base station and one user, appended one at a time. */
  class ChannelData {
    const bsId: int
    const ueId: int
    var paths: seq<PathInfo>

    constructor(bsId: int, ueId: int)
      ensures this.bsId == bsId && this.ueId == ueId
      ensures paths == []
    {
      this.bsId := bsId;
      this.ueId := ueId;
      paths := [];
    }

    /** add_path: the new path goes last and the earlier ones stay as they were. */
    method AddPath(p: PathInfo)
      modifies this`paths
      ensures paths == old(paths) + [p]
    {
      paths := paths + [p];
    }

    /** summarize: the ids and one summary per stored path, in order. */
    function Summarize(): (s: ChannelRecord)
      reads this
      ensures s.bsId == bsId && s.ueId == ueId
      ensures |s.paths| == |paths|
      ensures forall k :: 0 <= k < |paths| ==> s.paths[k] == paths[k].Summarize()
    {
      ChannelRecord(bsId, ueId, seq(|paths|, k requires 0 <= k < |paths| reads this => paths[k].Summarize()))
    }
  }

  /** The entries of param_dict that MIMOSimulator keeps. */
  datatype SimulatorParams = SimulatorParams(
    s: int, u: int, bs: int, ms: int, n: int, m: int,
    rhoDsAs: real, rhoSfAs: real, rhoSfDs: real, zethaSf: real,
    antennaSectors: string, frequency: real, power: real, noise: real)

  /** MIMOSimulator: the simulation parameters and the list of channels it has ingested. */
  class MIMOSimulator {
    const params: SimulatorParams
    var channels: seq<ChannelData>

    constructor(params: SimulatorParams)
      ensures this.params == params
      ensures channels == []
    {
      this.params := params;
      channels := [];
    }

    /** add_channel_data: appends the channel and changes nothing else. */
    method AddChannelData(c: ChannelData)
      modifies this`channels
      ensures channels == old(channels) + [c]
    {
      channels := channels + [c];
    }

    /**
     * integrate_channels: drops every channel held so far, then builds one
     * fresh ChannelData per input record, its paths in input order.
     */
    method IntegrateChannels(ranData: seq<ChannelRecord>)
      modifies this`channels
      ensures |channels| == |ranData|
      ensures forall i :: 0 <= i < |ranData| ==> fresh(channels[i])
      ensures forall i :: 0 <= i < |ranData| ==> channels[i].Summarize() == ranData[i]
      ensures forall i, j :: 0 <= i < j < |channels| ==> channels[i] != channels[j]
    {
      channels := [];
      for c := 0 to |ranData|
        invariant |channels| == c
        invariant forall i :: 0 <= i < c ==> fresh(channels[i])
        invariant forall i :: 0 <= i < c ==> channels[i].Summarize() == ranData[i]
        invariant forall i, j :: 0 <= i < j < c ==> channels[i] != channels[j]
      {
        var record := ranData[c];
        var channel := new ChannelData(record.bsId, record.ueId);
        for k := 0 to |record.paths|
          modifies channel
          invariant |channel.paths| == k
          invariant forall j :: 0 <= j < k ==> channel.paths[j] == FromRecord(record.paths[j])
        {
          channel.AddPath(FromRecord(record.paths[k]));
        }
        channels := channels + [channel];
      }
    }
  }

  /** The delays and powers of run_mimo once the AoD permutation has reordered them. */
  datatype ReorderedPaths = ReorderedPaths(delays: seq<real>, powers: seq<real>)

  /** Delays and powers both read through the same AoD permutation, so each path keeps its own pair. */
  function ReorderPaths(tn: seq<real>, pn: seq<real>, order: seq<nat>): (r: ReorderedPaths)
    requires |tn| == |pn| == |order| && IsPermutation(order, |tn|)
    ensures |r.delays| == |r.powers| == |tn|
    ensures forall k :: 0 <= k < |tn| ==>
      order[k] < |tn| && r.delays[k] == tn[order[k]] && r.powers[k] == pn[order[k]]
  {
    PermutationFacts(order, |tn|);
    ReorderedPaths(Gather(tn, order), Gather(pn, order))
  }

  /** Reordering keeps the delays, the powers and the total power. */
  lemma ReorderKeepsPaths(tn: seq<real>, pn: seq<real>, order: seq<nat>)
    requires |tn| == |pn| == |order| && IsPermutation(order, |tn|)
    ensures multiset(ReorderPaths(tn, pn, order).delays) == multiset(tn)
    ensures multiset(ReorderPaths(tn, pn, order).powers) == multiset(pn)
    ensures Sum(ReorderPaths(tn, pn, order).powers) == Sum(pn)
  {
    PermutationFacts(order, |tn|);
    GatherPermutation(tn, order);
    GatherPermutation(pn, order);
    SumPermutation(ReorderPaths(tn, pn, order).powers, pn);
  }

  /**
   * Steps 4 to 6 of run_mimo with the random draws as inputs: the delays, the
   * powers computed from them, the AoD deviations, and the delays and powers
   * reordered by the AoD permutation. Whatever the draws, the reordered powers
   * add up to 1 and the reordered delays still include the first arrival at 0.
   */
  lemma OrderedPathsStayNormalised(rDs: real, sigmaDs: real, logDraws: seq<real>, exp: real -> real,
                                   shadowing: seq<real>, rAs: real, sigmaAs: real, normals: seq<real>)
    requires |logDraws| > 0 && |shadowing| == |logDraws| && |normals| == |logDraws|
    requires rDs * sigmaDs != 0.0
    requires forall x :: exp(x) > 0.0
    requires forall i :: 0 <= i < |shadowing| ==> shadowing[i] > 0.0
    ensures var tn := Delays.Delay(rDs, sigmaDs, logDraws).value;
      var pn := Powers.CalculatePower(rDs, tn, sigmaDs, exp, shadowing).value;
      var aod := Angles.CalculateAod(rAs, sigmaAs, normals);
      var r := ReorderPaths(tn, pn, aod.order);
      && Sum(r.powers) == 1.0
      && (forall k :: 0 <= k < |r.powers| ==> 0.0 < r.powers[k] <= 1.0)
      && 0.0 in r.delays
      && (forall k :: 0 <= k < |r.delays| ==> r.delays[k] >= 0.0)
  {
    var tn := Delays.Delay(rDs, sigmaDs, logDraws).value;
    var pn := Powers.CalculatePower(rDs, tn, sigmaDs, exp, shadowing).value;
    var aod := Angles.CalculateAod(rAs, sigmaAs, normals);
    Powers.PowersSumToOne(rDs, tn, sigmaDs, exp, shadowing);
    ReorderKeepsPaths(tn, pn, aod.order);
    var r := ReorderPaths(tn, pn, aod.order);
    assert tn[0] in multiset(r.delays);
    forall k | 0 <= k < |r.powers| ensures 0.0 < r.powers[k] <= 1.0 {
      assert r.powers[k] == pn[aod.order[k]];
    }
  }

  /** An all-zero matrix. */
  function Zeros(rows: nat, cols: nat): (z: seq<seq<real>>)
    ensures IsMatrix(z, rows, cols)
    ensures forall i, j :: 0 <= i < rows && 0 <= j < cols ==> z[i][j] == 0.0
  {
    seq(rows, _ => seq(cols, _ => 0.0))
  }

  /** Entry-wise sum of two matrices of the same shape. */
  function AddMatrices(a: seq<seq<real>>, b: seq<seq<real>>, rows: nat, cols: nat): (c: seq<seq<real>>)
    requires IsMatrix(a, rows, cols) && IsMatrix(b, rows, cols)
    ensures IsMatrix(c, rows, cols)
    ensures forall i, j :: 0 <= i < rows && 0 <= j < cols ==> c[i][j] == a[i][j] + b[i][j]
  {
    seq(rows, i requires 0 <= i < rows => seq(cols, j requires 0 <= j < cols => a[i][j] + b[i][j]))
  }

  /**
   * The aggregate allocation of run_mimo: the entry-wise sum of the
   * per-path allocation matrices, all of the same shape.
   */
  function AggregateAllocation(allocs: seq<seq<seq<real>>>, rows: nat, cols: nat): (agg: seq<seq<real>>)
    requires forall p :: 0 <= p < |allocs| ==> IsMatrix(allocs[p], rows, cols)
    ensures IsMatrix(agg, rows, cols)
  {
    if allocs == [] then Zeros(rows, cols)
    else AddMatrices(allocs[0], AggregateAllocation(allocs[1..], rows, cols), rows, cols)
  }

  /** The entries of all paths at position (i, j). */
  function EntryAcross(allocs: seq<seq<seq<real>>>, i: nat, j: nat, rows: nat, cols: nat): (e: seq<real>)
    requires forall p :: 0 <= p < |allocs| ==> IsMatrix(allocs[p], rows, cols)
    requires i < rows && j < cols
    ensures |e| == |allocs|
  {
    forall p | 0 <= p < |allocs| ensures i < |allocs[p]| && j < |allocs[p][i]| {
      assert IsMatrix(allocs[p], rows, cols);
    }
    seq(|allocs|, p requires 0 <= p < |allocs| => allocs[p][i][j])
  }

  /** Each aggregate entry is the sum over paths of that entry. */
  lemma {:induction false} AggregateIsEntrySum(allocs: seq<seq<seq<real>>>, rows: nat, cols: nat, i: nat, j: nat)
    requires forall p :: 0 <= p < |allocs| ==> IsMatrix(allocs[p], rows, cols)
    requires i < rows && j < cols
    ensures AggregateAllocation(allocs, rows, cols)[i][j] == Sum(EntryAcross(allocs, i, j, rows, cols))
  {
    if allocs != [] {
      AggregateIsEntrySum(allocs[1..], rows, cols, i, j);
      assert EntryAcross(allocs, i, j, rows, cols)[1..] == EntryAcross(allocs[1..], i, j, rows, cols);
    }
  }

  lemma {:induction false} SumOfAdded(a: seq<real>, b: seq<real>, c: seq<real>)
    requires |a| == |b| == |c|
    requires forall k :: 0 <= k < |c| ==> c[k] == a[k] + b[k]
    ensures Sum(c) == Sum(a) + Sum(b)
  {
    if c != [] {
      SumOfAdded(a[1..], b[1..], c[1..]);
    }
  }

  lemma {:induction false} TotalOfAdded(a: seq<seq<real>>, b: seq<seq<real>>, rows: nat, cols: nat)
    requires IsMatrix(a, rows, cols) && IsMatrix(b, rows, cols)
    ensures Total(AddMatrices(a, b, rows, cols)) == Total(a) + Total(b)
    decreases rows
  {
    if rows > 0 {
      var c := AddMatrices(a, b, rows, cols);
      SumOfAdded(a[0], b[0], c[0]);
      assert c[1..] == AddMatrices(a[1..], b[1..], rows - 1, cols);
      TotalOfAdded(a[1..], b[1..], rows - 1, cols);
    }
  }

  lemma {:induction false} TotalOfZeros(rows: nat, cols: nat)
    ensures Total(Zeros(rows, cols)) == 0.0
  {
    if rows > 0 {
      SumOfCopies(0.0, Zeros(rows, cols)[0]);
      assert Zeros(rows, cols)[1..] == Zeros(rows - 1, cols);
      TotalOfZeros(rows - 1, cols);
    }
  }

  /** The total of each path's allocation, path by path. */
  function PathTotals(allocs: seq<seq<seq<real>>>): (totals: seq<real>)
    ensures |totals| == |allocs|
    ensures forall p :: 0 <= p < |allocs| ==> totals[p] == Total(allocs[p])
  {
    seq(|allocs|, p requires 0 <= p < |allocs| => Total(allocs[p]))
  }

  /** The aggregate spends what all paths spend together. */
  lemma {:induction false} AggregateTotalIsSumOfTotals(allocs: seq<seq<seq<real>>>, rows: nat, cols: nat)
    requires forall p :: 0 <= p < |allocs| ==> IsMatrix(allocs[p], rows, cols)
    ensures Total(AggregateAllocation(allocs, rows, cols)) == Sum(PathTotals(allocs))
  {
    if allocs == [] {
      TotalOfZeros(rows, cols);
    } else {
      AggregateTotalIsSumOfTotals(allocs[1..], rows, cols);
      TotalOfAdded(allocs[0], AggregateAllocation(allocs[1..], rows, cols), rows, cols);
      assert PathTotals(allocs)[1..] == PathTotals(allocs[1..]);
    }
  }

  /**
   * When every path's allocation totals T, the aggregate totals |paths| * T,
   * not T.
   */
  lemma AggregateTotal(allocs: seq<seq<seq<real>>>, rows: nat, cols: nat, t: real)
    requires forall p :: 0 <= p < |allocs| ==> IsMatrix(allocs[p], rows, cols)
    requires forall p :: 0 <= p < |allocs| ==> Total(allocs[p]) == t
    ensures Total(AggregateAllocation(allocs, rows, cols)) == |allocs| as real * t
  {
    var totals := PathTotals(allocs);
    assert Sum(totals) == |allocs| as real * t by {
      SumOfCounted(t, totals, |allocs|);
    }
    assert Total(AggregateAllocation(allocs, rows, cols)) == Sum(totals) by {
      AggregateTotalIsSumOfTotals(allocs, rows, cols);
    }
  }
}
