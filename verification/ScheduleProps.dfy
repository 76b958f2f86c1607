/** What the schedules found by the search are: minimal among the candidates, well placed, priced by their leaves. */
module ScheduleProps {
  import opened Graphs
  import opened Wrappers
  import opened Workflows
  import opened Placement
  import opened Scheduling

  // ---------------------------------------------------------------- minimality

  /** `c` is what merging the schedules of the cut's sides, on `m` and `n` GPUs, returns. */
  ghost predicate MergedFrom(e: Setup, cut: Cut, m: nat, n: nat, gpuNum: nat, isCollocated: bool, c: ScheduleResult)
    requires Lists(e.lister)
  {
    var source := Schedule(e, cut.source.graph, m);
    var sink := Schedule(e, cut.sink.graph, n);
    source.Returned? && sink.Returned?
      && Merge(e.cfg, gpuNum, source.value, sink.value, isCollocated, 1) == Returned(Some(c))
  }

  ghost predicate PipelinedAt(e: Setup, cut: Cut, n: nat, gpuNum: nat, c: ScheduleResult)
    requires Lists(e.lister)
  {
    n < gpuNum - 1 && MergedFrom(e, cut, n, gpuNum - n, gpuNum, false, c)
  }

  ghost predicate Pipelined(e: Setup, cut: Cut, from: nat, gpuNum: nat, c: ScheduleResult)
    requires Lists(e.lister)
  {
    exists n :: from <= n && PipelinedAt(e, cut, n, gpuNum, c)
  }

  /**
   * One of the merges the search tries for a cut: the collocated one, or pipelined with 1 to `gpuNum - 2` GPUs for the
   * source.
   */
  ghost predicate Candidate(e: Setup, cut: Cut, gpuNum: nat, c: ScheduleResult)
    requires Lists(e.lister)
  {
    MergedFrom(e, cut, gpuNum, gpuNum, gpuNum, true, c) || Pipelined(e, cut, 1, gpuNum, c)
  }

  ghost predicate NoDearer(r: Option<ScheduleResult>, c: ScheduleResult) {
    r.Some? && r.value.totalCost <= c.totalCost
  }

  lemma FindBestCovers(first: Option<ScheduleResult>, second: Option<ScheduleResult>)
    ensures var r := FindBest(first, second);
            && (r == first || r == second)
            && (first.Some? ==> NoDearer(r, first.value)) && (second.Some? ==> NoDearer(r, second.value))
  {
  }

  lemma {:induction false} OverSplitsBest(e: Setup, bound: set<Component>, cut: Cut, s: nat, gpuNum: nat,
      best: Option<ScheduleResult>, r: Option<ScheduleResult>)
    requires Lists(e.lister) && CutBelow(e, bound, cut)
    requires OverSplits(e, bound, cut, s, gpuNum, best) == Returned(r)
    ensures r == best || (r.Some? && Pipelined(e, cut, s, gpuNum, r.value))
    ensures best.Some? ==> NoDearer(r, best.value)
    ensures forall c :: Pipelined(e, cut, s, gpuNum, c) ==> NoDearer(r, c)
    decreases gpuNum - s
  {
    hide Schedule, Merge, FindBest, CutBelow;
    if s < gpuNum - 1 {
      var source := Schedule(e, cut.source.graph, s);
      var sink := Schedule(e, cut.sink.graph, gpuNum - s);
      var pipelined := Merge(e.cfg, gpuNum, source.value, sink.value, false, 1);
      FindBestCovers(best, pipelined.value);
      OverSplitsBest(e, bound, cut, s + 1, gpuNum, FindBest(best, pipelined.value), r);
      forall c | Pipelined(e, cut, s, gpuNum, c)
        ensures NoDearer(r, c)
      {
        var n :| s <= n && PipelinedAt(e, cut, n, gpuNum, c);
        if n == s {
          assert pipelined.value == Some(c);
        } else {
          assert Pipelined(e, cut, s + 1, gpuNum, c);
        }
      }
      if pipelined.value.Some? {
        assert PipelinedAt(e, cut, s, gpuNum, pipelined.value.value);
      }
    }
  }

  lemma OverCutBest(e: Setup, bound: set<Component>, cut: Cut, gpuNum: nat, best: Option<ScheduleResult>,
      r: Option<ScheduleResult>)
    requires Lists(e.lister) && CutBelow(e, bound, cut)
    requires OverCut(e, bound, cut, gpuNum, best) == Returned(r)
    ensures r == best || (r.Some? && Candidate(e, cut, gpuNum, r.value))
    ensures best.Some? ==> NoDearer(r, best.value)
    ensures forall c :: Candidate(e, cut, gpuNum, c) ==> NoDearer(r, c)
  {
    hide Schedule, Merge, FindBest, CutBelow, OverSplits;
    var collocated := Merge(e.cfg, gpuNum, Schedule(e, cut.source.graph, gpuNum).value,
      Schedule(e, cut.sink.graph, gpuNum).value, true, 1);
    FindBestCovers(best, collocated.value);
    OverSplitsBest(e, bound, cut, 1, gpuNum, FindBest(best, collocated.value), r);
  }

  lemma {:induction false} OverCutsBest(e: Setup, bound: set<Component>, cuts: seq<Cut>, i: nat, gpuNum: nat,
      best: Option<ScheduleResult>, r: Option<ScheduleResult>)
    requires Lists(e.lister) && CutsBelow(e, bound, cuts) && i <= |cuts|
    requires OverCuts(e, bound, cuts, i, gpuNum, best) == Returned(r)
    ensures r == best || (r.Some? && exists k :: i <= k < |cuts| && Candidate(e, cuts[k], gpuNum, r.value))
    ensures best.Some? ==> NoDearer(r, best.value)
    ensures forall k, c :: i <= k < |cuts| && Candidate(e, cuts[k], gpuNum, c) ==> NoDearer(r, c)
    decreases |cuts| - i
  {
    hide CutBelow, OverCut, Candidate;
    if i < |cuts| {
      assert CutBelow(e, bound, cuts[i]);
      var best' := OverCut(e, bound, cuts[i], gpuNum, best).value;
      OverCutBest(e, bound, cuts[i], gpuNum, best, best');
      OverCutsBest(e, bound, cuts, i + 1, gpuNum, best', r);
    }
  }

  /**
   * The schedule of a workflow of more than one node is a cheapest candidate over all cuts and splits,
   * and there is none only if every candidate was refused.
   */
  lemma ScheduleIsBest(e: Setup, g: Graph, gpuNum: nat, r: Option<ScheduleResult>)
    requires Lists(e.lister) && |MakeWorkflow(e.lister, g).nodes| != 1
    requires Schedule(e, g, gpuNum) == Returned(r)
    ensures var cuts := Cuts(e.lister, MakeWorkflow(e.lister, g));
            && (r.Some? ==> exists k :: 0 <= k < |cuts| && Candidate(e, cuts[k], gpuNum, r.value))
            && (forall k, c :: 0 <= k < |cuts| && Candidate(e, cuts[k], gpuNum, c) ==> NoDearer(r, c))
  {
    hide MakeWorkflow, Cuts, CutsBelow, Candidate;
    CutsAreBelow(e, g);
    OverCutsBest(e, Nodes(g), Cuts(e.lister, MakeWorkflow(e.lister, g)), 0, gpuNum, None, r);
  }

  // ---------------------------------------------------------------- structure

  /** What every result of the search satisfies, on the nodes of an acyclic workflow. */
  ghost predicate Sound(e: Setup, g: Graph, gpuNum: nat, r: ScheduleResult) {
    && r.totalGpuNum == gpuNum
    && (gpuNum > 0 ==> WellPlaced(r, Nodes(g)))
    && (e.cfg.taskType.Reasoning? ==> PricedByLeaves(e.cfg, r))
    && (e.cfg.taskType.Embodiment? ==> ActorOnAll(r))
  }

  lemma SingletonNodes(lister: Lister, g: Graph)
    requires Lists(lister) && |MakeWorkflow(lister, g).nodes| == 1
    ensures Nodes(g) == {MakeWorkflow(lister, g).nodes[0]}
  {
    hide TopoSort.TopologicalOrder;
    var ns := lister(Nodes(g));
    assert IsEnumeration(ns, Nodes(g));
    assert forall v :: v in Nodes(g) <==> v in ns;
  }

  lemma LeafIsSound(e: Setup, g: Graph, gpuNum: nat, node: Component, r: ScheduleResult)
    requires Nodes(g) == {node} && LeafSchedule(e, node, gpuNum) == Returned(Some(r))
    ensures Sound(e, g, gpuNum, r)
  {
    assert r.placement == [Entry(node, 0, gpuNum)];
    assert NodesOf(r.placement) == {node} by { assert r.placement[0].node == node; }
  }

  lemma MergeIsSound(e: Setup, g: Graph, source: ScheduleResult, a: Graph, m: nat, sink: ScheduleResult, b: Graph,
      n: nat, gpuNum: nat, isCollocated: bool, r: ScheduleResult)
    requires Sound(e, a, m, source) && Sound(e, b, n, sink)
    requires Nodes(a) !! Nodes(b) && Nodes(g) == Nodes(a) + Nodes(b)
    requires Merge(e.cfg, gpuNum, Some(source), Some(sink), isCollocated, 1) == Returned(Some(r))
    requires !isCollocated ==> m > 0 && n > 0
    ensures Sound(e, g, gpuNum, r)
  {
    hide WellPlaced, PricedByLeaves, Nodes;
    if gpuNum > 0 {
      MergeWellPlaced(e.cfg, gpuNum, source, Nodes(a), sink, Nodes(b), isCollocated, 1, r);
    }
    if e.cfg.taskType.Reasoning? {
      MergePriced(e.cfg, gpuNum, source, sink, isCollocated, r);
    }
  }

  lemma MergeNeedsBoth(cfg: Config, gpuNum: nat, source: Option<ScheduleResult>, sink: Option<ScheduleResult>,
      isCollocated: bool, r: ScheduleResult)
    requires Merge(cfg, gpuNum, source, sink, isCollocated, 1) == Returned(Some(r))
    ensures source.Some? && sink.Some?
  {
  }

  lemma MergedIsSound(e: Setup, g: Graph, cut: Cut, a: set<Component>, b: set<Component>, m: nat, n: nat, gpuNum: nat,
      isCollocated: bool, r: ScheduleResult)
    requires Lists(e.lister) && Acyclic(g) && IsForwardCut(g, a, b)
    requires cut.source == MakeWorkflow(e.lister, Restrict(g, a)) && cut.sink == MakeWorkflow(e.lister, Restrict(g, b))
    requires MergedFrom(e, cut, m, n, gpuNum, isCollocated, r)
    requires !isCollocated ==> m > 0 && n > 0
    ensures Sound(e, g, gpuNum, r)
    decreases Nodes(g), 0
  {
    hide Schedule, MakeWorkflow, Sound, Merge, Restrict, Acyclic, Edge;
    WorkflowGraph(e.lister, Restrict(g, a));
    WorkflowGraph(e.lister, Restrict(g, b));
    RestrictEdges(g, a);
    RestrictEdges(g, b);
    RestrictAcyclic(g, a);
    RestrictAcyclic(g, b);
    var source, sink := Schedule(e, Restrict(g, a), m).value, Schedule(e, Restrict(g, b), n).value;
    MergeNeedsBoth(e.cfg, gpuNum, source, sink, isCollocated, r);
    var u :| u in a;
    var v :| v in b;
    ScheduleIsSound(e, Restrict(g, a), m, source.value);
    ScheduleIsSound(e, Restrict(g, b), n, sink.value);
    MergeIsSound(e, g, source.value, Restrict(g, a), m, sink.value, Restrict(g, b), n, gpuNum, isCollocated, r);
  }

  /**
   * Every schedule of an acyclic workflow places exactly its nodes, on non-empty ranges within the GPUs it was given,
   * with disjoint ranges across every pipeline; in reasoning tasks it uses one mode and is priced by its leaves;
   * in embodiment tasks an actor placed last has all GPUs.
   */
  lemma ScheduleIsSound(e: Setup, g: Graph, gpuNum: nat, r: ScheduleResult)
    requires Lists(e.lister) && Acyclic(g)
    requires Schedule(e, g, gpuNum) == Returned(Some(r))
    ensures Sound(e, g, gpuNum, r)
    decreases Nodes(g), 1
  {
    hide MakeWorkflow, Cuts, Sound, Restrict, Acyclic, IsForwardCut, Edge, Merge, LeafSchedule;
    var w := MakeWorkflow(e.lister, g);
    if |w.nodes| == 1 {
      SingletonNodes(e.lister, g);
      LeafIsSound(e, g, gpuNum, w.nodes[0], r);
    } else {
      ScheduleIsBest(e, g, gpuNum, Some(r));
      var cuts := Cuts(e.lister, w);
      var k :| 0 <= k < |cuts| && Candidate(e, cuts[k], gpuNum, r);
      var a, b := CutSides(e.lister, g, k);
      if MergedFrom(e, cuts[k], gpuNum, gpuNum, gpuNum, true, r) {
        MergedIsSound(e, g, cuts[k], a, b, gpuNum, gpuNum, gpuNum, true, r);
      } else {
        var n :| 1 <= n && PipelinedAt(e, cuts[k], n, gpuNum, r);
        MergedIsSound(e, g, cuts[k], a, b, n, gpuNum - n, gpuNum, false, r);
      }
    }
  }

  // ---------------------------------------------------------------- prices

  /** The price of one component: in reasoning tasks the profile is per group, in embodiment tasks for all of them. */
  ghost predicate LeafPriced(e: Setup, r: ScheduleResult)
    requires r.Single?
  {
    && |r.placement| == 1
    && match e.profile(r.placement[0].node, r.totalGpuNum)
       case None => false
       case Some(cost) =>
         if e.cfg.taskType.Reasoning? then
           r.costPerGroupBatch == cost && r.totalCost == cost * e.cfg.rolloutBatchSize as real
         else
           e.cfg.envNum > 0 && r.costPerGroupBatch == cost / e.cfg.envNum as real && r.totalCost == cost
  }

  /** What a part of a pipeline costs per group: a collocated one as its component next to the other part. */
  function GroupCost(r: ScheduleResult, isSource: bool): real
    requires r.Collocated? ==> !(if isSource then r.sink else r.source).Collocated?
  {
    if !r.Collocated? then r.costPerGroupBatch
    else if isSource then r.sink.costPerGroupBatch
    else r.source.costPerGroupBatch
  }

  ghost predicate PipelinePriced(cfg: Config, r: ScheduleResult)
    requires r.Disaggregated?
  {
    && (r.source.Collocated? ==> !r.source.sink.Collocated?) && (r.sink.Collocated? ==> !r.sink.source.Collocated?)
    && var x, y := GroupCost(r.source, true), GroupCost(r.sink, false);
       && Larger(r.costPerGroupBatch, x, y)
       && r.warmupTime == (if r.source.Disaggregated? then r.source.warmupTime else x)
         + (if r.sink.Disaggregated? then r.sink.warmupTime else y)
       && r.totalCost == r.warmupTime + r.costPerGroupBatch * (cfg.rolloutBatchSize as real - 1.0)
  }

  /** The prices at every level of a schedule, down to the profile. */
  ghost predicate Priced(e: Setup, r: ScheduleResult) {
    match r
    case Single(_, _, _, _) => LeafPriced(e, r)
    case Collocated(_, _, total, source, sink) =>
      total == source.totalCost + sink.totalCost && Priced(e, source) && Priced(e, sink)
    case Disaggregated(_, _, _, source, sink, _, _) => PipelinePriced(e.cfg, r) && Priced(e, source) && Priced(e, sink)
  }

  lemma MergedIsPriced(e: Setup, source: ScheduleResult, sink: ScheduleResult, gpuNum: nat, isCollocated: bool,
      r: ScheduleResult)
    requires Priced(e, source) && Priced(e, sink)
    requires Merge(e.cfg, gpuNum, Some(source), Some(sink), isCollocated, 1) == Returned(Some(r))
    ensures Priced(e, r)
  {
    hide Merge, Larger, LeafPriced;
    if isCollocated {
      SharedPrice(e.cfg, gpuNum, source, sink, 1, r);
    } else {
      PipelinedPrice(e.cfg, gpuNum, source, sink, r);
    }
  }

  lemma LeafIsPriced(e: Setup, v: Component, gpuNum: nat, r: ScheduleResult)
    requires LeafSchedule(e, v, gpuNum) == Returned(Some(r))
    ensures Priced(e, r) && r.Single? && r.totalGpuNum == gpuNum && r.placement == [Entry(v, 0, gpuNum)]
  {
  }

  lemma CandidateIsPriced(e: Setup, bound: set<Component>, cut: Cut, gpuNum: nat, r: ScheduleResult)
    requires Lists(e.lister) && CutBelow(e, bound, cut) && Candidate(e, cut, gpuNum, r)
    ensures Priced(e, r)
    decreases bound, 1
  {
    hide Schedule, Priced, Merge;
    if MergedFrom(e, cut, gpuNum, gpuNum, gpuNum, true, r) {
      MergedSides(e, bound, cut, gpuNum, gpuNum, gpuNum, true, r);
    } else {
      var n :| 1 <= n && PipelinedAt(e, cut, n, gpuNum, r);
      MergedSides(e, bound, cut, n, gpuNum - n, gpuNum, false, r);
    }
  }

  lemma MergedSides(e: Setup, bound: set<Component>, cut: Cut, m: nat, n: nat, gpuNum: nat, isCollocated: bool,
      r: ScheduleResult)
    requires Lists(e.lister) && CutBelow(e, bound, cut) && MergedFrom(e, cut, m, n, gpuNum, isCollocated, r)
    ensures Priced(e, r)
    decreases bound, 0
  {
    hide Schedule, Priced, Merge;
    var source, sink := Schedule(e, cut.source.graph, m).value, Schedule(e, cut.sink.graph, n).value;
    MergeNeedsBoth(e.cfg, gpuNum, source, sink, isCollocated, r);
    ScheduleIsPriced(e, cut.source.graph, m, source.value);
    ScheduleIsPriced(e, cut.sink.graph, n, sink.value);
    MergedIsPriced(e, source.value, sink.value, gpuNum, isCollocated, r);
  }

  /** Every schedule the search finds, in every task and for every workflow, is priced down to the profile. */
  lemma {:induction false} ScheduleIsPriced(e: Setup, g: Graph, gpuNum: nat, r: ScheduleResult)
    requires Lists(e.lister) && Schedule(e, g, gpuNum) == Returned(Some(r))
    ensures Priced(e, r)
    decreases Nodes(g), 2
  {
    hide MakeWorkflow, Cuts, Priced, Candidate, LeafSchedule, CutBelow;
    var w := MakeWorkflow(e.lister, g);
    if |w.nodes| == 1 {
      LeafIsPriced(e, w.nodes[0], gpuNum, r);
    } else {
      ScheduleIsBest(e, g, gpuNum, Some(r));
      var cuts := Cuts(e.lister, w);
      var k :| 0 <= k < |cuts| && Candidate(e, cuts[k], gpuNum, r);
      CutIsBelow(e, g, k);
      CandidateIsPriced(e, Nodes(g), cuts[k], gpuNum, r);
    }
  }

  /** A component of its own: what the search returns for it, exceptions included. */
  lemma LeafMeans(e: Setup, g: Graph, v: Component, gpuNum: nat)
    requires Lists(e.lister) && Nodes(g) == {v}
    ensures var f := Schedule(e, g, gpuNum);
      && (f.Raised? <==> v.Scc? || (e.cfg.taskType.Embodiment? && e.cfg.envNum == 0 && e.profile(v, gpuNum).Some?))
      && (f.Returned? && f.value.Some? ==> f.value.value.Single? && f.value.value.placement == [Entry(v, 0, gpuNum)])
      && (f.Returned? ==> (f.value.Some? <==> e.profile(v, gpuNum).Some?))
  {
    OneNode(e.lister, g, v);
    hide MakeWorkflow, Nodes;
    assert Schedule(e, g, gpuNum) == LeafSchedule(e, v, gpuNum);
  }

  lemma OneNode(lister: Lister, g: Graph, v: Component)
    requires Lists(lister) && Nodes(g) == {v}
    ensures MakeWorkflow(lister, g).nodes == [v]
  {
    hide TopoSort.TopologicalOrder;
    var ns := lister(Nodes(g));
    assert IsEnumeration(ns, Nodes(g));
    assert v in ns && (|ns| > 1 ==> ns[0] != ns[1]);
    assert forall i :: 0 <= i < |ns| ==> ns[i] in ns && ns[i] == v;
  }

  // ---------------------------------------------------------------- exceptions

  lemma PlacedSize(r: ScheduleResult, nodes: set<Component>)
    requires WellPlaced(r, nodes)
    ensures |nodes| == |r.placement|
    ensures !r.Single? ==> |r.placement| == |r.source.placement| + |r.sink.placement|
    ensures !r.Single? ==>
      WellPlaced(r.source, NodesOf(r.source.placement)) && WellPlaced(r.sink, NodesOf(r.sink.placement))
  {
    DistinctSize(r.placement);
  }

  lemma {:induction false} DistinctSize(p: PlacementMap)
    requires DistinctNodes(p)
    ensures |NodesOf(p)| == |p|
  {
    if p != [] {
      var q := p[..|p| - 1];
      DistinctSize(q);
      assert NodesOf(p) == NodesOf(q) + {p[|p| - 1].node};
    }
  }

  /** Three collocated components need three nodes. */
  lemma NestedNeedsThree(r: ScheduleResult, nodes: set<Component>, isSource: bool)
    requires WellPlaced(r, nodes) && NestedCollocated(r, isSource)
    ensures |nodes| >= 3
  {
    PlacedSize(r, nodes);
    PlacedSize(r.source, NodesOf(r.source.placement));
    PlacedSize(r.sink, NodesOf(r.sink.placement));
  }

  /** A workflow the search cannot fail on: acyclic, of plain components, and no more than three of them. */
  ghost predicate Small(g: Graph) {
    Acyclic(g) && Nodes(g) != {} && |Nodes(g)| <= 3 && forall v :: v in Nodes(g) ==> v.Plain?
  }

  ghost predicate Usable(cfg: Config) {
    cfg.taskType.Embodiment? ==> cfg.envNum > 0
  }

  ghost predicate SmallCut(cut: Cut) {
    && Small(cut.source.graph) && Small(cut.sink.graph)
    && |Nodes(cut.source.graph)| + |Nodes(cut.sink.graph)| <= 3
    && Nodes(cut.source.graph) !! Nodes(cut.sink.graph)
  }

  /** What the search returns for a small workflow. */
  ghost predicate Fine(e: Setup, g: Graph, gpuNum: nat, f: Found) {
    f.Returned? && (f.value.Some? ==> Sound(e, g, gpuNum, f.value.value))
  }

  lemma MergeIsFine(e: Setup, cut: Cut, source: Found, m: nat, sink: Found, n: nat, gpuNum: nat, isCollocated: bool)
    requires SmallCut(cut) && m > 0 && n > 0 && gpuNum == if isCollocated then m else m + n
    requires isCollocated ==> m == n
    requires Fine(e, cut.source.graph, m, source) && Fine(e, cut.sink.graph, n, sink)
    ensures Merge(e.cfg, gpuNum, source.value, sink.value, isCollocated, 1).Returned?
  {
    hide WellPlaced, PricedByLeaves, Nodes, Acyclic, Construct, Admissible;
    if source.value.Some? && sink.value.Some? {
      var a, b := Nodes(cut.source.graph), Nodes(cut.sink.graph);
      var s, k := source.value.value, sink.value.value;
      MergeRaisesIff(e.cfg, gpuNum, s, a, k, b, isCollocated, 1);
      if NestedCollocated(s, true) {
        NestedNeedsThree(s, a, true);
      }
      if NestedCollocated(k, false) {
        NestedNeedsThree(k, b, false);
      }
      NonEmptySize(a);
      NonEmptySize(b);
    }
  }

  lemma NonEmptySize(a: set<Component>)
    requires a != {}
    ensures |a| > 0
  {
  }

  lemma LeafIsFine(e: Setup, g: Graph, node: Component, gpuNum: nat)
    requires Nodes(g) == {node} && node.Plain? && Usable(e.cfg)
    ensures Fine(e, g, gpuNum, LeafSchedule(e, node, gpuNum))
  {
    var f := LeafSchedule(e, node, gpuNum);
    if f.value.Some? {
      LeafIsSound(e, g, gpuNum, node, f.value.value);
    }
  }

  lemma SmallCutFrom(g: Graph, a: set<Component>, b: set<Component>)
    requires Small(g) && IsForwardCut(g, a, b)
    ensures Small(Restrict(g, a)) && Small(Restrict(g, b))
    ensures |Nodes(Restrict(g, a))| + |Nodes(Restrict(g, b))| <= 3
    ensures Nodes(Restrict(g, a)) !! Nodes(Restrict(g, b))
  {
    RestrictEdges(g, a);
    RestrictEdges(g, b);
    RestrictAcyclic(g, a);
    RestrictAcyclic(g, b);
    var x, y :| x in a && y in b && Edge(g, x, y);
    NonEmptySize(a);
    NonEmptySize(b);
    assert |a + b| == |a| + |b|;
  }

  lemma CutIsSmall(e: Setup, g: Graph, k: nat)
    requires Lists(e.lister) && Small(g) && k < |Cuts(e.lister, MakeWorkflow(e.lister, g))|
    ensures SmallCut(Cuts(e.lister, MakeWorkflow(e.lister, g))[k])
  {
    hide Cuts, MakeWorkflow, Restrict, Acyclic, IsForwardCut, Edge, Nodes;
    var a, b := CutSides(e.lister, g, k);
    SmallCutFrom(g, a, b);
    WorkflowGraph(e.lister, Restrict(g, a));
    WorkflowGraph(e.lister, Restrict(g, b));
  }

  lemma SmallSides(e: Setup, bound: set<Component>, cut: Cut)
    requires Lists(e.lister) && CutBelow(e, bound, cut) && SmallCut(cut)
    ensures Nodes(cut.source.graph) < bound && Nodes(cut.sink.graph) < bound
    ensures Small(cut.source.graph) && Small(cut.sink.graph)
  {
  }

  lemma SplitFine(e: Setup, bound: set<Component>, cut: Cut, s: nat, gpuNum: nat)
    requires Lists(e.lister) && CutBelow(e, bound, cut) && SmallCut(cut) && Usable(e.cfg) && 0 < s < gpuNum
    ensures Fine(e, cut.source.graph, s, Schedule(e, cut.source.graph, s))
    ensures Fine(e, cut.sink.graph, gpuNum - s, Schedule(e, cut.sink.graph, gpuNum - s))
    decreases bound, 0, 0
  {
    hide *;
    SmallSides(e, bound, cut);
    ScheduleIsFine(e, cut.source.graph, s);
    ScheduleIsFine(e, cut.sink.graph, gpuNum - s);
  }

  lemma SplitReturns(e: Setup, bound: set<Component>, cut: Cut, s: nat, gpuNum: nat)
    requires Lists(e.lister) && CutBelow(e, bound, cut) && SmallCut(cut) && Usable(e.cfg) && 0 < s < gpuNum
    ensures var source, sink := Schedule(e, cut.source.graph, s), Schedule(e, cut.sink.graph, gpuNum - s);
            source.Returned? && sink.Returned? && Merge(e.cfg, gpuNum, source.value, sink.value, false, 1).Returned?
    decreases bound, 0, 1
  {
    hide *;
    SplitFine(e, bound, cut, s, gpuNum);
    FineReturns(e, cut.source.graph, s);
    FineReturns(e, cut.sink.graph, gpuNum - s);
    MergeIsFine(e, cut, Schedule(e, cut.source.graph, s), s, Schedule(e, cut.sink.graph, gpuNum - s), gpuNum - s,
      gpuNum, false);
  }

  lemma {:induction false} SplitsReturn(e: Setup, bound: set<Component>, cut: Cut, s: nat, gpuNum: nat,
      best: Option<ScheduleResult>)
    requires Lists(e.lister) && CutBelow(e, bound, cut) && SmallCut(cut) && Usable(e.cfg) && s > 0
    ensures OverSplits(e, bound, cut, s, gpuNum, best).Returned?
    decreases bound, 0, 2, gpuNum - s
  {
    hide Schedule, Merge, FindBest, CutBelow, SmallCut;
    if s < gpuNum - 1 {
      SplitReturns(e, bound, cut, s, gpuNum);
      var pipelined := Merge(e.cfg, gpuNum, Schedule(e, cut.source.graph, s).value,
        Schedule(e, cut.sink.graph, gpuNum - s).value, false, 1);
      SplitsReturn(e, bound, cut, s + 1, gpuNum, FindBest(best, pipelined.value));
    }
  }

  lemma FineReturns(e: Setup, g: Graph, gpuNum: nat)
    requires Lists(e.lister) && Fine(e, g, gpuNum, Schedule(e, g, gpuNum))
    ensures Schedule(e, g, gpuNum).Returned?
  {
    hide Schedule;
  }

  lemma CutReturns(e: Setup, bound: set<Component>, cut: Cut, gpuNum: nat, best: Option<ScheduleResult>)
    requires Lists(e.lister) && CutBelow(e, bound, cut) && SmallCut(cut) && Usable(e.cfg) && gpuNum > 0
    ensures OverCut(e, bound, cut, gpuNum, best).Returned?
    decreases bound, 1, 0
  {
    hide Schedule, Fine, Merge, FindBest, MakeWorkflow, OverSplits;
    ScheduleIsFine(e, cut.source.graph, gpuNum);
    ScheduleIsFine(e, cut.sink.graph, gpuNum);
    FineReturns(e, cut.source.graph, gpuNum);
    FineReturns(e, cut.sink.graph, gpuNum);
    MergeIsFine(e, cut, Schedule(e, cut.source.graph, gpuNum), gpuNum, Schedule(e, cut.sink.graph, gpuNum), gpuNum,
      gpuNum, true);
    var collocated := Merge(e.cfg, gpuNum, Schedule(e, cut.source.graph, gpuNum).value,
      Schedule(e, cut.sink.graph, gpuNum).value, true, 1);
    SplitsReturn(e, bound, cut, 1, gpuNum, FindBest(best, collocated.value));
  }

  lemma {:induction false} CutsReturn(e: Setup, bound: set<Component>, cuts: seq<Cut>, i: nat, gpuNum: nat,
      best: Option<ScheduleResult>)
    requires Lists(e.lister) && CutsBelow(e, bound, cuts) && i <= |cuts| && Usable(e.cfg) && gpuNum > 0
    requires forall k :: 0 <= k < |cuts| ==> SmallCut(cuts[k])
    ensures OverCuts(e, bound, cuts, i, gpuNum, best).Returned?
    decreases bound, 1, 1, |cuts| - i
  {
    hide SmallCut, OverCut, CutBelow;
    if i < |cuts| {
      assert CutBelow(e, bound, cuts[i]);
      CutReturns(e, bound, cuts[i], gpuNum, best);
      CutsReturn(e, bound, cuts, i + 1, gpuNum, OverCut(e, bound, cuts[i], gpuNum, best).value);
    }
  }

  /** On the workflows the toolkit builds, which have at most three components, the search never raises. */
  lemma ScheduleIsFine(e: Setup, g: Graph, gpuNum: nat)
    requires Lists(e.lister) && Small(g) && Usable(e.cfg) && gpuNum > 0
    ensures Fine(e, g, gpuNum, Schedule(e, g, gpuNum))
    decreases Nodes(g), 2, 0
  {
    hide MakeWorkflow, Cuts, Small, Fine, OverCuts, SmallCut, CutsBelow;
    var w := MakeWorkflow(e.lister, g);
    var cuts := Cuts(e.lister, w);
    if |w.nodes| == 1 {
      SingletonNodes(e.lister, g);
      SmallIsPlain(g, w.nodes[0]);
      LeafIsFine(e, g, w.nodes[0], gpuNum);
    } else {
      CutsAreBelow(e, g);
      forall k | 0 <= k < |cuts|
        ensures SmallCut(cuts[k])
      {
        CutIsSmall(e, g, k);
      }
      CutsReturn(e, Nodes(g), cuts, 0, gpuNum, None);
      FoundIsFine(e, g, gpuNum);
    }
  }

  lemma SmallIsPlain(g: Graph, v: Component)
    requires Small(g) && v in Nodes(g)
    ensures v.Plain?
  {
  }

  lemma FoundIsFine(e: Setup, g: Graph, gpuNum: nat)
    requires Lists(e.lister) && Small(g) && Schedule(e, g, gpuNum).Returned? && gpuNum > 0
    ensures Fine(e, g, gpuNum, Schedule(e, g, gpuNum))
  {
    hide Schedule, Sound;
    var f := Schedule(e, g, gpuNum);
    if f.value.Some? {
      ScheduleIsSound(e, g, gpuNum, f.value.value);
    }
  }
}
