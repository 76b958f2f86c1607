/** Schedule results: how sub-schedules are merged into collocated and pipelined ones. */
module Placement {
  import opened Graphs
  import opened Wrappers

  datatype TaskType = Reasoning | Embodiment

  datatype Config = Config(taskType: TaskType, rolloutBatchSize: nat, envNum: nat)

  /** `node: range(lo, hi)`, one item of a placement dictionary. */
  datatype Entry = Entry(node: Component, lo: nat, hi: nat)

  /** A placement dictionary in insertion order. */
  type PlacementMap = seq<Entry>

  function DictSet(p: PlacementMap, e: Entry): PlacementMap {
    if p == [] then [e]
    else if p[0].node == e.node then [e] + p[1..]
    else [p[0]] + DictSet(p[1..], e)
  }

  /** `{**p, **q}`. */
  function DictUpdate(p: PlacementMap, q: PlacementMap): PlacementMap
    decreases q
  {
    if q == [] then p else DictUpdate(DictSet(p, q[0]), q[1..])
  }

  datatype ScheduleResult =
    | Single(totalGpuNum: nat, placement: PlacementMap, totalCost: real, costPerGroupBatch: real)
    | Collocated(totalGpuNum: nat, placement: PlacementMap, totalCost: real, source: ScheduleResult,
      sink: ScheduleResult)
    | Disaggregated(totalGpuNum: nat, placement: PlacementMap, totalCost: real, source: ScheduleResult,
      sink: ScheduleResult,
        costPerGroupBatch: real, warmupTime: real)

  function NewSingle(totalGpuNum: nat, node: Component, costPerGroupBatch: real, totalCost: real): ScheduleResult {
    Single(totalGpuNum, [Entry(node, 0, totalGpuNum)], totalCost, costPerGroupBatch)
  }

  function NewCollocated(totalGpuNum: nat, source: ScheduleResult, sink: ScheduleResult): Outcome<ScheduleResult> {
    if totalGpuNum == source.totalGpuNum == sink.totalGpuNum then
      Returned(Collocated(totalGpuNum, DictUpdate(source.placement, sink.placement), source.totalCost + sink.totalCost,
        source, sink))
    else
      Raised
  }

  /** `cost_per_group_batch` as a field: a collocated result has none. */
  function CostField(r: ScheduleResult): Option<real> {
    if r.Collocated? then None else Some(r.costPerGroupBatch)
  }

  /** `get_cost_per_group_batch`: a collocated result answers with the cost of its inner neighbour. */
  function ConsultedCost(r: ScheduleResult, isSource: bool): Option<real> {
    if r.Collocated? then CostField(if isSource then r.sink else r.source) else CostField(r)
  }

  function WarmupOf(r: ScheduleResult, cost: real): real {
    if r.Disaggregated? then r.warmupTime else cost
  }

  function Max(a: real, b: real): real {
    if b > a then b else a
  }

  function Shifted(p: PlacementMap, offset: nat): (r: PlacementMap)
    ensures |r| == |p|
  {
    seq(|p|, i requires 0 <= i < |p| => Entry(p[i].node, p[i].lo + offset, p[i].hi + offset))
  }

  predicate AllNonEmpty(p: PlacementMap) {
    forall i :: 0 <= i < |p| ==> p[i].lo < p[i].hi
  }

  /** `_get_disaggregated_placement`: it reads the ends of every sink range, which raises on an empty one. */
  function PipelinedPlacement(source: ScheduleResult, sink: ScheduleResult): Outcome<PlacementMap> {
    if AllNonEmpty(sink.placement) then
      Returned(DictUpdate(source.placement, Shifted(sink.placement, source.totalGpuNum)))
    else
      Raised
  }

  function NewDisaggregated(cfg: Config, totalGpuNum: nat, source: ScheduleResult, sink: ScheduleResult,
      warmupGroupNum: nat): Outcome<ScheduleResult> {
    var sourceCost := ConsultedCost(source, true);
    var sinkCost := ConsultedCost(sink, false);
    if totalGpuNum != source.totalGpuNum + sink.totalGpuNum || sourceCost == None || sinkCost == None then
      Raised
    else
      var placement :- PipelinedPlacement(source, sink);
      var warmupTime := (WarmupOf(source, sourceCost.value) + WarmupOf(sink, sinkCost.value)) * warmupGroupNum as real;
      var cost := Max(sourceCost.value, sinkCost.value);
      Returned(Disaggregated(totalGpuNum, placement,
        warmupTime + cost * (cfg.rolloutBatchSize - warmupGroupNum) as real,
                             source, sink, cost, warmupTime))
  }

  predicate OtherMode(parent: ScheduleResult, child: ScheduleResult) {
    !child.Single? && (child.Collocated? != parent.Collocated?)
  }

  function IsHybrid(r: ScheduleResult): bool {
    !r.Single? && (OtherMode(r, r.source) || OtherMode(r, r.sink))
  }

  /** The actor, when placed last, has every GPU. */
  predicate ActorOnAll(r: ScheduleResult) {
    |r.placement| > 0 && r.placement[|r.placement| - 1].node == Plain("actor") ==>
      r.placement[|r.placement| - 1].hi - r.placement[|r.placement| - 1].lo == r.totalGpuNum
  }

  /** The checks on a freshly merged result. */
  predicate Admissible(cfg: Config, r: ScheduleResult) {
    && (cfg.taskType.Reasoning? ==> !IsHybrid(r))
    && (cfg.taskType.Embodiment? ==> ActorOnAll(r))
  }

  function Construct(cfg: Config, totalGpuNum: nat, source: ScheduleResult, sink: ScheduleResult, isCollocated: bool,
      warmupGroupNum: nat): Outcome<ScheduleResult> {
    if isCollocated then NewCollocated(totalGpuNum, source, sink)
    else NewDisaggregated(cfg, totalGpuNum, source, sink, warmupGroupNum)
  }

  /** `ScheduleResult.merger_schedule_results`; an empty placement in an embodiment task raises. */
  function Merge(cfg: Config, totalGpuNum: nat, source: Option<ScheduleResult>, sink: Option<ScheduleResult>,
      isCollocated: bool, warmupGroupNum: nat)
    : Outcome<Option<ScheduleResult>>
  {
    if source == None || sink == None then Returned(None)
    else
      var r :- Construct(cfg, totalGpuNum, source.value, sink.value, isCollocated, warmupGroupNum);
      if cfg.taskType.Embodiment? && r.placement == [] then Raised
      else Returned(if Admissible(cfg, r) then Some(r) else None)
  }

  /** `ScheduleResult.find_best_schedule`: on a tie the second wins. */
  function FindBest(first: Option<ScheduleResult>, second: Option<ScheduleResult>): Option<ScheduleResult> {
    if first == None || second == None then (if first != None then first else second)
    else if first.value.totalCost < second.value.totalCost then first else second
  }

  lemma DictUpdateNext(p: PlacementMap, q: PlacementMap, i: nat)
    requires i < |q|
    ensures DictUpdate(p, q[i..]) == DictUpdate(DictSet(p, q[i]), q[i + 1..])
  {
    hide DictSet;
    assert q[i..][0] == q[i] && q[i..][1..] == q[i + 1..];
  }

  method PlacePipelined(source: ScheduleResult, sink: ScheduleResult) returns (r: Outcome<PlacementMap>)
    ensures r == PipelinedPlacement(source, sink)
  {
    var placement := source.placement;
    var shifted := Shifted(sink.placement, source.totalGpuNum);
    for i := 0 to |sink.placement|
      invariant forall k :: 0 <= k < i ==> sink.placement[k].lo < sink.placement[k].hi
      invariant DictUpdate(placement, shifted[i..]) == DictUpdate(source.placement, shifted)
    {
      var e := sink.placement[i];
      if e.lo >= e.hi {
        return Raised;
      }
      DictUpdateNext(placement, shifted, i);
      placement := DictSet(placement, Entry(e.node, e.lo + source.totalGpuNum, e.hi + source.totalGpuNum));
    }
    r := Returned(placement);
  }

  // ---------------------------------------------------------------- placements

  predicate DistinctNodes(p: PlacementMap) {
    forall i, j :: 0 <= i < j < |p| ==> p[i].node != p[j].node
  }

  function NodesOf(p: PlacementMap): set<Component> {
    set i | 0 <= i < |p| :: p[i].node
  }

  lemma {:induction false} DictSetFresh(p: PlacementMap, e: Entry)
    requires forall i :: 0 <= i < |p| ==> p[i].node != e.node
    ensures DictSet(p, e) == p + [e]
  {
    if p != [] {
      DictSetFresh(p[1..], e);
      assert p == [p[0]] + p[1..];
    }
  }

  ghost predicate NoCommonNode(p: PlacementMap, q: PlacementMap) {
    forall i, j :: 0 <= i < |p| && 0 <= j < |q| ==> p[i].node != q[j].node
  }

  lemma NoCommonStep(p: PlacementMap, q: PlacementMap)
    requires q != [] && DistinctNodes(q) && NoCommonNode(p, q)
    ensures DistinctNodes(q[1..]) && NoCommonNode(p + [q[0]], q[1..])
  {
    forall i, j | 0 <= i < |p + [q[0]]| && 0 <= j < |q[1..]|
      ensures (p + [q[0]])[i].node != q[1..][j].node
    {
      assert q[1..][j] == q[j + 1];
    }
  }

  /** Merging dictionaries without common keys concatenates them. */
  lemma {:induction false} DictUpdateDisjoint(p: PlacementMap, q: PlacementMap)
    requires DistinctNodes(q) && NoCommonNode(p, q)
    ensures DictUpdate(p, q) == p + q
    decreases q
  {
    if q != [] {
      DictSetFresh(p, q[0]);
      NoCommonStep(p, q);
      hide DictSet, DistinctNodes, NoCommonNode;
      DictUpdateDisjoint(p + [q[0]], q[1..]);
      assert p + q == p + [q[0]] + q[1..];
    } else {
      assert p + q == p;
    }
  }

  /** `p` places every node of `nodes` once, each on a non-empty range inside `[lo, hi)`. */
  ghost predicate Places(p: PlacementMap, nodes: set<Component>, lo: nat, hi: nat) {
    && DistinctNodes(p)
    && NodesOf(p) == nodes
    && forall i :: 0 <= i < |p| ==> lo <= p[i].lo < p[i].hi <= hi
  }

  /** A pipelined result keeps its source below and its sink above the split; this holds at every level. */
  ghost predicate WellPlaced(r: ScheduleResult, nodes: set<Component>) {
    && r.placement != []
    && Places(r.placement, nodes, 0, r.totalGpuNum)
    && match r
       case Single(_, _, _, _) => true
       case Collocated(_, _, _, source, sink) =>
         && source.totalGpuNum == sink.totalGpuNum == r.totalGpuNum
         && NodesOf(source.placement) !! NodesOf(sink.placement)
         && r.placement == source.placement + sink.placement
         && WellPlaced(source, NodesOf(source.placement)) && WellPlaced(sink, NodesOf(sink.placement))
       case Disaggregated(_, _, _, source, sink, _, _) =>
         && source.totalGpuNum > 0 && sink.totalGpuNum > 0
         && source.totalGpuNum + sink.totalGpuNum == r.totalGpuNum
         && NodesOf(source.placement) !! NodesOf(sink.placement)
         && r.placement == source.placement + Shifted(sink.placement, source.totalGpuNum)
         && Places(r.placement[..|source.placement|], NodesOf(source.placement), 0, source.totalGpuNum)
         && Places(r.placement[|source.placement|..], NodesOf(sink.placement), source.totalGpuNum, r.totalGpuNum)
         && WellPlaced(source, NodesOf(source.placement)) && WellPlaced(sink, NodesOf(sink.placement))
  }

  lemma PlacesShifted(p: PlacementMap, nodes: set<Component>, lo: nat, hi: nat, offset: nat)
    requires Places(p, nodes, lo, hi)
    ensures Places(Shifted(p, offset), nodes, lo + offset, hi + offset)
  {
    assert forall i :: 0 <= i < |p| ==> Shifted(p, offset)[i].node == p[i].node;
  }

  lemma PlacesApart(p: PlacementMap, q: PlacementMap)
    requires NodesOf(p) !! NodesOf(q)
    ensures forall i, j :: 0 <= i < |p| && 0 <= j < |q| ==> p[i].node != q[j].node
  {
    forall i, j | 0 <= i < |p| && 0 <= j < |q|
      ensures p[i].node != q[j].node
    {
      assert p[i].node in NodesOf(p) && q[j].node in NodesOf(q);
    }
  }

  lemma PlacesJoined(p: PlacementMap, a: set<Component>, q: PlacementMap, b: set<Component>, mid: nat, lo: nat, hi: nat)
    requires Places(p, a, 0, mid) && Places(q, b, lo, hi) && a !! b && mid <= hi
    ensures DictUpdate(p, q) == p + q
    ensures Places(p + q, a + b, 0, hi)
    ensures (p + q)[..|p|] == p && (p + q)[|p|..] == q
  {
    PlacesApart(p, q);
    DictUpdateDisjoint(p, q);
    var r := p + q;
    forall v
      ensures v in NodesOf(r) <==> v in a + b
    {
      if v in a {
        var i :| 0 <= i < |p| && p[i].node == v;
        assert r[i].node == v;
      } else if v in b {
        var i :| 0 <= i < |q| && q[i].node == v;
        assert r[|p| + i].node == v;
      }
    }
  }

  /** Whatever merging returns is well placed on the union of the parts' nodes. */
  lemma MergeWellPlaced(cfg: Config, g: nat, source: ScheduleResult, a: set<Component>, sink: ScheduleResult,
      b: set<Component>, isCollocated: bool, w: nat, r: ScheduleResult)
    requires WellPlaced(source, a) && WellPlaced(sink, b) && a !! b
    requires !isCollocated ==> source.totalGpuNum > 0 && sink.totalGpuNum > 0
    requires Merge(cfg, g, Some(source), Some(sink), isCollocated, w) == Returned(Some(r))
    ensures WellPlaced(r, a + b) && r.totalGpuNum == g
  {
    if isCollocated {
      CollocatedWellPlaced(g, source, a, sink, b, r);
    } else {
      DisaggregatedWellPlaced(cfg, g, source, a, sink, b, w, r);
    }
  }

  lemma CollocatedWellPlaced(g: nat, source: ScheduleResult, a: set<Component>, sink: ScheduleResult, b: set<Component>,
      r: ScheduleResult)
    requires WellPlaced(source, a) && WellPlaced(sink, b) && a !! b
    requires NewCollocated(g, source, sink) == Returned(r)
    ensures WellPlaced(r, a + b) && r.totalGpuNum == g
  {
    PlacesJoined(source.placement, a, sink.placement, b, g, 0, g);
    hide Places, DictUpdate;
    WellPlacedMeans(source, a);
    WellPlacedMeans(sink, b);
  }

  lemma DisaggregatedWellPlaced(cfg: Config, g: nat, source: ScheduleResult, a: set<Component>, sink: ScheduleResult,
      b: set<Component>, w: nat, r: ScheduleResult)
    requires WellPlaced(source, a) && WellPlaced(sink, b) && a !! b && source.totalGpuNum > 0 && sink.totalGpuNum > 0
    requires NewDisaggregated(cfg, g, source, sink, w) == Returned(r)
    ensures WellPlaced(r, a + b) && r.totalGpuNum == g
  {
    PlacesShifted(sink.placement, b, 0, sink.totalGpuNum, source.totalGpuNum);
    PlacesJoined(source.placement, a, Shifted(sink.placement, source.totalGpuNum), b, source.totalGpuNum,
      source.totalGpuNum, g);
    hide Places, DictUpdate, Shifted, ConsultedCost, WarmupOf, Max;
    WellPlacedMeans(source, a);
    WellPlacedMeans(sink, b);
  }

  // ---------------------------------------------------------------- costs

  /** The single-node results at the leaves, from source to sink. */
  function Leaves(r: ScheduleResult): (ls: seq<ScheduleResult>)
    ensures |ls| > 0
  {
    if r.Single? then [r] else Leaves(r.source) + Leaves(r.sink)
  }

  function LeafCost(r: ScheduleResult): real {
    if r.Single? then r.costPerGroupBatch else 0.0
  }

  function SumCosts(ls: seq<ScheduleResult>): real {
    if ls == [] then 0.0 else LeafCost(ls[0]) + SumCosts(ls[1..])
  }

  function MaxCost(ls: seq<ScheduleResult>): real
    requires |ls| > 0
  {
    if |ls| == 1 then LeafCost(ls[0]) else Max(LeafCost(ls[0]), MaxCost(ls[1..]))
  }

  lemma {:induction false} SumCostsConcat(a: seq<ScheduleResult>, b: seq<ScheduleResult>)
    ensures SumCosts(a + b) == SumCosts(a) + SumCosts(b)
  {
    if a == [] {
      assert a + b == b;
    } else {
      assert (a + b)[1..] == a[1..] + b;
      SumCostsConcat(a[1..], b);
    }
  }

  lemma {:induction false} MaxCostConcat(a: seq<ScheduleResult>, b: seq<ScheduleResult>)
    requires |a| > 0 && |b| > 0
    ensures MaxCost(a + b) == Max(MaxCost(a), MaxCost(b))
  {
    if |a| == 1 {
      assert (a + b)[1..] == b;
    } else {
      assert (a + b)[1..] == a[1..] + b;
      MaxCostConcat(a[1..], b);
    }
  }

  /** Every inner node has the mode of `collocated`. */
  ghost predicate SingleMode(r: ScheduleResult, collocated: bool) {
    r.Single? || (r.Collocated? == collocated && SingleMode(r.source, collocated) && SingleMode(r.sink, collocated))
  }

  /**
   * The shape and the cost of a result of a reasoning task: one mode throughout, and a total that depends on the
   * sequence of leaves only, not on how they were merged.
   */
  ghost predicate PricedByLeaves(cfg: Config, r: ScheduleResult) {
    var ls := Leaves(r);
    var batch := cfg.rolloutBatchSize as real;
    match r
    case Single(_, _, total, cost) => total == batch * cost
    case Collocated(_, _, total, _, _) => SingleMode(r, true) && total == batch * SumCosts(ls)
    case Disaggregated(_, _, total, _, _, cost, warmup) =>
      && SingleMode(r, false)
      && cost == MaxCost(ls) && warmup == SumCosts(ls)
      && total == SumCosts(ls) + MaxCost(ls) * (batch - 1.0)
  }

  lemma LeavesJoin(r: ScheduleResult)
    requires !r.Single?
    ensures SumCosts(Leaves(r)) == SumCosts(Leaves(r.source)) + SumCosts(Leaves(r.sink))
    ensures MaxCost(Leaves(r)) == Max(MaxCost(Leaves(r.source)), MaxCost(Leaves(r.sink)))
  {
    SumCostsConcat(Leaves(r.source), Leaves(r.sink));
    MaxCostConcat(Leaves(r.source), Leaves(r.sink));
  }

  lemma Distributes(x: real, a: real, b: real)
    ensures x * (a + b) == x * a + x * b
  {
  }

  lemma CollocatedPriced(cfg: Config, r: ScheduleResult)
    requires r.Collocated? && !IsHybrid(r)
    requires PricedByLeaves(cfg, r.source) && PricedByLeaves(cfg, r.sink)
    requires r.totalCost == r.source.totalCost + r.sink.totalCost
    ensures PricedByLeaves(cfg, r)
  {
    hide Leaves, SumCosts, MaxCost;
    LeavesJoin(r);
    LeafPrice(r.source);
    LeafPrice(r.sink);
    Distributes(cfg.rolloutBatchSize as real, SumCosts(Leaves(r.source)), SumCosts(Leaves(r.sink)));
    assert r.source.totalCost == cfg.rolloutBatchSize as real * SumCosts(Leaves(r.source));
    assert r.sink.totalCost == cfg.rolloutBatchSize as real * SumCosts(Leaves(r.sink));
    assert SingleMode(r, true);
    assert r.totalCost == cfg.rolloutBatchSize as real * SumCosts(Leaves(r));
  }

  lemma DisaggregatedPriced(cfg: Config, r: ScheduleResult)
    requires r.Disaggregated? && !IsHybrid(r)
    requires PricedByLeaves(cfg, r.source) && PricedByLeaves(cfg, r.sink)
    requires r.costPerGroupBatch == Max(r.source.costPerGroupBatch, r.sink.costPerGroupBatch)
    requires r.warmupTime == WarmupOf(r.source, r.source.costPerGroupBatch) + WarmupOf(r.sink, r.sink.costPerGroupBatch)
    requires r.totalCost == r.warmupTime + r.costPerGroupBatch * (cfg.rolloutBatchSize as real - 1.0)
    ensures PricedByLeaves(cfg, r)
  {
    hide Leaves, SumCosts, MaxCost;
    LeavesJoin(r);
    LeafPrice(r.source);
    LeafPrice(r.sink);
    assert SingleMode(r, false);
    assert r.costPerGroupBatch == MaxCost(Leaves(r)) && r.warmupTime == SumCosts(Leaves(r));
    assert r.costPerGroupBatch * (cfg.rolloutBatchSize as real - 1.0)
      == MaxCost(Leaves(r)) * (cfg.rolloutBatchSize as real - 1.0);
  }

  /** Merging keeps the mode and the price, although only the children's modes are inspected. */
  lemma MergePriced(cfg: Config, g: nat, source: ScheduleResult, sink: ScheduleResult, isCollocated: bool,
      r: ScheduleResult)
    requires cfg.taskType.Reasoning?
    requires PricedByLeaves(cfg, source) && PricedByLeaves(cfg, sink)
    requires Merge(cfg, g, Some(source), Some(sink), isCollocated, 1) == Returned(Some(r))
    ensures PricedByLeaves(cfg, r)
  {
    hide PricedByLeaves;
    if isCollocated {
      CollocatedPriced(cfg, r);
    } else {
      assert !source.Collocated? && !sink.Collocated?;
      DisaggregatedPriced(cfg, r);
    }
  }

  lemma LeafPrice(r: ScheduleResult)
    ensures r.Single? ==> SumCosts(Leaves(r)) == MaxCost(Leaves(r)) == r.costPerGroupBatch
  {
    if r.Single? {
      assert Leaves(r)[1..] == [];
    }
  }

  // ---------------------------------------------------------------- exceptions

  /** The neighbour a pipelined merge would consult inside a collocated result is itself collocated. */
  predicate NestedCollocated(r: ScheduleResult, isSource: bool) {
    r.Collocated? && (if isSource then r.sink else r.source).Collocated?
  }

  lemma MergedNonEmpty(source: ScheduleResult, a: set<Component>, sink: ScheduleResult, b: set<Component>)
    requires WellPlaced(source, a) && WellPlaced(sink, b) && a != {} && a !! b
    ensures DictUpdate(source.placement, Shifted(sink.placement, source.totalGpuNum)) != []
    ensures DictUpdate(source.placement, sink.placement) != []
    ensures AllNonEmpty(sink.placement)
  {
    PlacesShifted(sink.placement, b, 0, sink.totalGpuNum, source.totalGpuNum);
    PlacesApart(source.placement, sink.placement);
    PlacesApart(source.placement, Shifted(sink.placement, source.totalGpuNum));
    DictUpdateDisjoint(source.placement, sink.placement);
    DictUpdateDisjoint(source.placement, Shifted(sink.placement, source.totalGpuNum));
    assert source.placement != [];
  }

  /**
   * Exactly when merging two well placed results with fitting GPU counts raises: a pipelined merge whose source or
   * sink is collocated with a collocated neighbour inside.
   */
  lemma MergeRaisesIff(cfg: Config, g: nat, source: ScheduleResult, a: set<Component>, sink: ScheduleResult,
      b: set<Component>, isCollocated: bool, w: nat)
    requires WellPlaced(source, a) && WellPlaced(sink, b) && a != {} && a !! b
    requires if isCollocated then g == source.totalGpuNum == sink.totalGpuNum
      else g == source.totalGpuNum + sink.totalGpuNum
    ensures Merge(cfg, g, Some(source), Some(sink), isCollocated, w) == Raised
       <==> !isCollocated && (NestedCollocated(source, true) || NestedCollocated(sink, false))
  {
    hide WellPlaced, Admissible, DictUpdate, AllNonEmpty;
    MergedNonEmpty(source, a, sink, b);
  }

  // ---------------------------------------------------------------- every task: prices and refusals, field by field

  /** What sharing costs, in every task: both parts one after the other. */
  lemma SharedPrice(cfg: Config, g: nat, source: ScheduleResult, sink: ScheduleResult, w: nat, r: ScheduleResult)
    requires Merge(cfg, g, Some(source), Some(sink), true, w) == Returned(Some(r))
    ensures r.Collocated? && r.totalGpuNum == source.totalGpuNum == sink.totalGpuNum == g
    ensures r.source == source && r.sink == sink && r.totalCost == source.totalCost + sink.totalCost
  {
    hide DictUpdate, Admissible;
  }

  /** `cost` is the larger of two. */
  predicate Larger(cost: real, x: real, y: real) {
    cost >= x && cost >= y && (cost == x || cost == y)
  }

  /**
   * What a pipeline costs, in every task: the first group runs through both parts, then every further group takes as
   * long as the slower part. A collocated part counts as its component next to the other part.
   */
  lemma PipelinedPrice(cfg: Config, g: nat, source: ScheduleResult, sink: ScheduleResult, r: ScheduleResult)
    requires Merge(cfg, g, Some(source), Some(sink), false, 1) == Returned(Some(r))
    ensures r.Disaggregated? && r.totalGpuNum == source.totalGpuNum + sink.totalGpuNum == g
    ensures r.source == source && r.sink == sink
    ensures (source.Collocated? ==> !source.sink.Collocated?) && (sink.Collocated? ==> !sink.source.Collocated?)
    ensures var x := if source.Collocated? then source.sink.costPerGroupBatch else source.costPerGroupBatch;
      var y := if sink.Collocated? then sink.source.costPerGroupBatch else sink.costPerGroupBatch;
      && Larger(r.costPerGroupBatch, x, y)
      && r.warmupTime == (if source.Disaggregated? then source.warmupTime else x)
        + (if sink.Disaggregated? then sink.warmupTime else y)
      && r.totalCost == r.warmupTime + r.costPerGroupBatch * (cfg.rolloutBatchSize as real - 1.0)
  {
    hide DictUpdate, Shifted, Admissible, AllNonEmpty;
  }

  /** No part that is not a single component has the other mode. */
  predicate SameMode(child: ScheduleResult, isCollocated: bool) {
    child.Single? || (child.Collocated? <==> isCollocated)
  }

  /** The actor, if it is the last component, has all `g` GPUs. */
  predicate LastActorHasAll(p: PlacementMap, g: nat)
    requires p != []
  {
    var last := p[|p| - 1];
    last.node == Plain("actor") ==> last.hi - last.lo == g
  }

  /**
   * Exactly when a merge that does not raise is refused: in a reasoning task if a part has the other mode, in an
   * embodiment task if the sink ends with an actor that is not on all GPUs.
   */
  lemma MergeFoundIff(cfg: Config, g: nat, source: ScheduleResult, a: set<Component>, sink: ScheduleResult,
      b: set<Component>, isCollocated: bool, w: nat)
    requires WellPlaced(source, a) && WellPlaced(sink, b) && a != {} && b != {} && a !! b
    requires var m := Merge(cfg, g, Some(source), Some(sink), isCollocated, w); m.Returned?
    ensures sink.placement != []
    ensures Merge(cfg, g, Some(source), Some(sink), isCollocated, w).value.Some? <==>
      && (cfg.taskType.Reasoning? ==> SameMode(source, isCollocated) && SameMode(sink, isCollocated))
      && (cfg.taskType.Embodiment? ==> LastActorHasAll(sink.placement, g))
  {
    hide WellPlaced, DictUpdate, Shifted, Construct;
    LastOfMerged(source, a, sink, b);
    Constructed(cfg, g, source, sink, isCollocated, w);
  }

  lemma Constructed(cfg: Config, g: nat, source: ScheduleResult, sink: ScheduleResult, isCollocated: bool, w: nat)
    requires Construct(cfg, g, source, sink, isCollocated, w).Returned?
    ensures var r := Construct(cfg, g, source, sink, isCollocated, w).value;
      && !r.Single? && (r.Collocated? <==> isCollocated) && r.totalGpuNum == g && r.source == source && r.sink == sink
      && r.placement == DictUpdate(source.placement,
        if isCollocated then sink.placement else Shifted(sink.placement, source.totalGpuNum))
  {
    hide DictUpdate, Shifted, AllNonEmpty, Max, WarmupOf, ConsultedCost;
  }

  lemma LastOfMerged(source: ScheduleResult, a: set<Component>, sink: ScheduleResult, b: set<Component>)
    requires WellPlaced(source, a) && WellPlaced(sink, b) && a !! b
    ensures sink.placement != []
    ensures var p := DictUpdate(source.placement, sink.placement);
      p != [] && p[|p| - 1] == sink.placement[|sink.placement| - 1]
    ensures var p := DictUpdate(source.placement, Shifted(sink.placement, source.totalGpuNum));
      var last := sink.placement[|sink.placement| - 1];
      && p != [] && p[|p| - 1].node == last.node && p[|p| - 1].hi - p[|p| - 1].lo == last.hi - last.lo
  {
    hide *;
    WellPlacedMeans(source, a);
    WellPlacedMeans(sink, b);
    ShiftedLast(sink.placement, source.totalGpuNum);
    PlacesShifted(sink.placement, b, 0, sink.totalGpuNum, source.totalGpuNum);
    PlacesMeans(Shifted(sink.placement, source.totalGpuNum), b, source.totalGpuNum,
      sink.totalGpuNum + source.totalGpuNum);
    LastOfUpdate(source.placement, sink.placement);
    LastOfUpdate(source.placement, Shifted(sink.placement, source.totalGpuNum));
  }

  lemma ShiftedLast(p: PlacementMap, offset: nat)
    requires p != []
    ensures Shifted(p, offset) != []
    ensures var last, moved := p[|p| - 1], Shifted(p, offset)[|p| - 1];
      moved.node == last.node && moved.hi - moved.lo == last.hi - last.lo
  {
  }

  lemma WellPlacedMeans(r: ScheduleResult, nodes: set<Component>)
    requires WellPlaced(r, nodes)
    ensures r.placement != [] && NodesOf(r.placement) == nodes && DistinctNodes(r.placement)
    ensures Places(r.placement, nodes, 0, r.totalGpuNum)
  {
  }

  lemma PlacesMeans(p: PlacementMap, nodes: set<Component>, lo: nat, hi: nat)
    requires Places(p, nodes, lo, hi)
    ensures NodesOf(p) == nodes && DistinctNodes(p)
  {
  }

  lemma LastOfUpdate(p: PlacementMap, q: PlacementMap)
    requires NodesOf(p) !! NodesOf(q) && DistinctNodes(q) && q != []
    ensures DictUpdate(p, q) != [] && DictUpdate(p, q)[|DictUpdate(p, q)| - 1] == q[|q| - 1]
  {
    PlacesApart(p, q);
    hide DictUpdate, NodesOf, DistinctNodes;
    DictUpdateDisjoint(p, q);
  }
}
