/** Embodiment tasks, whose last component is the actor: it shares all GPUs with whatever is best for the others. */
module ActorLast {
  import opened Graphs
  import opened Wrappers
  import opened Workflows
  import opened Placement
  import opened Scheduling
  import opened ScheduleProps
  import opened Chains
  import opened LongChains
  import opened FoundIff
  import opened ThreeComponents

  // ---------------------------------------------------------------- the order of a placement

  /** The placement lists the components in the order of the chain. */
  ghost predicate InOrder(p: PlacementMap, s: seq<Component>) {
    |p| == |s| && forall i :: 0 <= i < |s| ==> p[i].node == s[i]
  }

  lemma OrderJoined(p: PlacementMap, q: PlacementMap, s: seq<Component>, k: nat)
    requires k <= |s| && InOrder(p, s[..k]) && InOrder(q, s[k..])
    ensures InOrder(p + q, s)
  {
  }

  lemma OrderShifted(p: PlacementMap, s: seq<Component>, offset: nat)
    requires InOrder(p, s)
    ensures InOrder(Shifted(p, offset), s)
  {
  }

  lemma MergedInOrder(e: Setup, g: Graph, source: ScheduleResult, sink: ScheduleResult, gpuNum: nat,
      isCollocated: bool, r: ScheduleResult, s: seq<Component>, k: nat)
    requires Merge(e.cfg, gpuNum, Some(source), Some(sink), isCollocated, 1) == Returned(Some(r))
    requires WellPlaced(r, Nodes(g))
    requires k <= |s| && InOrder(source.placement, s[..k]) && InOrder(sink.placement, s[k..])
    ensures InOrder(r.placement, s)
  {
    hide Merge, InOrder, Nodes, Places, Shifted, Larger;
    if isCollocated {
      SharedPrice(e.cfg, gpuNum, source, sink, 1, r);
      OrderJoined(source.placement, sink.placement, s, k);
    } else {
      PipelinedPrice(e.cfg, gpuNum, source, sink, r);
      OrderShifted(sink.placement, s[k..], source.totalGpuNum);
      OrderJoined(source.placement, Shifted(sink.placement, source.totalGpuNum), s, k);
    }
  }

  lemma MergedSidesInOrder(e: Setup, g: Graph, cut: Cut, m: nat, n: nat, gpuNum: nat, isCollocated: bool,
      r: ScheduleResult, s: seq<Component>, k: nat)
    requires Lists(e.lister) && MergedFrom(e, cut, m, n, gpuNum, isCollocated, r) && WellPlaced(r, Nodes(g))
    requires 0 < k < |s| && m > 0 && n > 0
    requires IsChain(cut.source.graph, s[..k]) && IsChain(cut.sink.graph, s[k..])
    ensures InOrder(r.placement, s)
    decreases |s|, 0
  {
    hide Schedule, Merge, InOrder, IsChain, WellPlaced;
    var source, sink := Schedule(e, cut.source.graph, m).value, Schedule(e, cut.sink.graph, n).value;
    MergeNeedsBoth(e.cfg, gpuNum, source, sink, isCollocated, r);
    ChainPlaced(e, cut.source.graph, s[..k], m, source.value);
    ChainPlaced(e, cut.sink.graph, s[k..], n, sink.value);
    MergedInOrder(e, g, source.value, sink.value, gpuNum, isCollocated, r, s, k);
  }

  /** However a chain is scheduled, its placement lists it in order. */
  lemma {:induction false} ChainPlaced(e: Setup, g: Graph, s: seq<Component>, gpuNum: nat, r: ScheduleResult)
    requires Lists(e.lister) && IsChain(g, s) && gpuNum > 0 && Schedule(e, g, gpuNum) == Returned(Some(r))
    ensures InOrder(r.placement, s)
    decreases |s|, 1
  {
    hide *;
    ChainDistinct(g, s);
    ChainSearch(e, g, s, gpuNum);
    if |s| == 1 {
      LeafInOrder(e, s, gpuNum, r);
    } else {
      ChainOrder(e.lister, g, s);
      ScheduleIsBest(e, g, gpuNum, Some(r));
      var cuts := Cuts(e.lister, MakeWorkflow(e.lister, g));
      var k :| 0 <= k < |cuts| && Candidate(e, cuts[k], gpuNum, r);
      ChainWellPlaced(e, g, s, gpuNum, r);
      var m, n, shared := Sides(e, cuts[k], gpuNum, r);
      MergedSidesInOrder(e, g, cuts[k], m, n, gpuNum, shared, r, s, k + 1);
    }
  }

  lemma LeafInOrder(e: Setup, s: seq<Component>, gpuNum: nat, r: ScheduleResult)
    requires |s| == 1 && LeafSchedule(e, s[0], gpuNum) == Returned(Some(r))
    ensures InOrder(r.placement, s)
  {
  }

  lemma ChainWellPlaced(e: Setup, g: Graph, s: seq<Component>, gpuNum: nat, r: ScheduleResult)
    requires Lists(e.lister) && IsChain(g, s) && gpuNum > 0 && Schedule(e, g, gpuNum) == Returned(Some(r))
    ensures WellPlaced(r, Nodes(g)) && r.totalGpuNum == gpuNum
  {
    ChainForward(g, s);
    hide Schedule, IsChain, Acyclic, ForwardOrder, WellPlaced, PricedByLeaves, ActorOnAll, Nodes;
    ScheduleIsSound(e, g, gpuNum, r);
  }

  lemma Sides(e: Setup, cut: Cut, gpuNum: nat, r: ScheduleResult) returns (m: nat, n: nat, shared: bool)
    requires Lists(e.lister) && gpuNum > 0 && Candidate(e, cut, gpuNum, r)
    ensures m > 0 && n > 0 && MergedFrom(e, cut, m, n, gpuNum, shared, r)
  {
    hide MergedFrom;
    if MergedFrom(e, cut, gpuNum, gpuNum, gpuNum, true, r) {
      m, n, shared := gpuNum, gpuNum, true;
    } else {
      m :| 1 <= m && PipelinedAt(e, cut, m, gpuNum, r);
      n, shared := gpuNum - m, false;
    }
  }

  // ---------------------------------------------------------------- no pipeline ends with the actor

  ghost predicate EndsWithActor(e: Setup, s: seq<Component>) {
    e.cfg.taskType.Embodiment? && |s| > 0 && s[|s| - 1] == Plain("actor")
  }

  lemma ActorOnFewer(p: PlacementMap, s: seq<Component>, e: Setup, few: nat, g: nat)
    requires EndsWithActor(e, s) && InOrder(p, s) && few < g
    requires forall i :: 0 <= i < |p| ==> p[i].hi <= few
    ensures p != [] && !LastActorHasAll(p, g)
  {
  }

  lemma PlacedWithin(r: ScheduleResult, nodes: set<Component>)
    requires WellPlaced(r, nodes)
    ensures forall i :: 0 <= i < |r.placement| ==> r.placement[i].hi <= r.totalGpuNum
    ensures r.placement != []
  {
  }

  /** With the actor at its end a chain is never pipelined: the actor would not have all GPUs. */
  lemma NoActorPipe(e: Setup, cut: Cut, n: nat, gpuNum: nat, s: seq<Component>, k: nat)
    requires Lists(e.lister) && 0 < k < |s| && EndsWithActor(e, s) && 1 <= n
    requires IsChain(cut.source.graph, s[..k]) && IsChain(cut.sink.graph, s[k..])
    requires Nodes(cut.source.graph) !! Nodes(cut.sink.graph)
    ensures !PipedAt(e, cut, n, gpuNum)
  {
    hide Schedule, Merge, IsChain, WellPlaced, InOrder, Nodes, MergedFrom, LastActorHasAll;
    if PipedAt(e, cut, n, gpuNum) {
      var c :| PipelinedAt(e, cut, n, gpuNum, c);
      PipeIsRefused(e, cut, n, gpuNum, s, k, c);
    }
  }

  lemma PipeIsRefused(e: Setup, cut: Cut, n: nat, gpuNum: nat, s: seq<Component>, k: nat, c: ScheduleResult)
    requires Lists(e.lister) && 0 < k < |s| && EndsWithActor(e, s) && 1 <= n < gpuNum - 1
    requires IsChain(cut.source.graph, s[..k]) && IsChain(cut.sink.graph, s[k..])
    requires Nodes(cut.source.graph) !! Nodes(cut.sink.graph)
    ensures !MergedFrom(e, cut, n, gpuNum - n, gpuNum, false, c)
  {
    hide Schedule, Merge, IsChain, WellPlaced, InOrder, Nodes, LastActorHasAll, MergedFrom;
    if MergedFrom(e, cut, n, gpuNum - n, gpuNum, false, c) {
      SidesFound(e, cut, n, gpuNum - n, gpuNum, c);
      RefusedPipe(e, cut, n, gpuNum, s, k);
    }
  }

  lemma SidesFound(e: Setup, cut: Cut, m: nat, n: nat, gpuNum: nat, c: ScheduleResult)
    requires Lists(e.lister) && MergedFrom(e, cut, m, n, gpuNum, false, c)
    ensures var source, sink := Schedule(e, cut.source.graph, m), Schedule(e, cut.sink.graph, n);
      && source.Returned? && source.value.Some? && sink.Returned? && sink.value.Some?
      && Merge(e.cfg, gpuNum, source.value, sink.value, false, 1) == Returned(Some(c))
  {
    hide Schedule, Merge;
    MergeNeedsBoth(e.cfg, gpuNum, Schedule(e, cut.source.graph, m).value, Schedule(e, cut.sink.graph, n).value, false,
      c);
  }

  lemma RefusedPipe(e: Setup, cut: Cut, n: nat, gpuNum: nat, s: seq<Component>, k: nat)
    requires Lists(e.lister) && 0 < k < |s| && EndsWithActor(e, s) && 1 <= n < gpuNum - 1
    requires IsChain(cut.source.graph, s[..k]) && IsChain(cut.sink.graph, s[k..])
    requires Nodes(cut.source.graph) !! Nodes(cut.sink.graph)
    requires Schedule(e, cut.source.graph, n).Returned? && Schedule(e, cut.source.graph, n).value.Some?
    requires Schedule(e, cut.sink.graph, gpuNum - n).Returned? && Schedule(e, cut.sink.graph, gpuNum - n).value.Some?
    ensures var m := Merge(e.cfg, gpuNum, Schedule(e, cut.source.graph, n).value,
      Schedule(e, cut.sink.graph, gpuNum - n).value, false, 1);
      m.Raised? || m.value.None?
  {
    hide Schedule, Merge, IsChain, WellPlaced, InOrder, Nodes, LastActorHasAll;
    var source, sink := Schedule(e, cut.source.graph, n).value, Schedule(e, cut.sink.graph, gpuNum - n).value;
    ChainWellPlaced(e, cut.source.graph, s[..k], n, source.value);
    ChainWellPlaced(e, cut.sink.graph, s[k..], gpuNum - n, sink.value);
    ChainPlaced(e, cut.sink.graph, s[k..], gpuNum - n, sink.value);
    PlacedWithin(sink.value, Nodes(cut.sink.graph));
    ActorOnFewer(sink.value.placement, s[k..], e, gpuNum - n, gpuNum);
    ChainHasNodes(cut.source.graph, s[..k]);
    ChainHasNodes(cut.sink.graph, s[k..]);
    if Merge(e.cfg, gpuNum, source, sink, false, 1).Returned? {
      MergeFoundIff(e.cfg, gpuNum, source.value, Nodes(cut.source.graph), sink.value, Nodes(cut.sink.graph), false, 1);
    }
  }

  lemma ChainHasNodes(g: Graph, s: seq<Component>)
    requires IsChain(g, s)
    ensures Nodes(g) != {} && Nodes(g) == Members(s)
  {
    ChainNodes(g, s);
    assert s[0] in Members(s);
  }

  // ---------------------------------------------------------------- three components that end with the actor

  lemma SharesIfFound(e: Setup, cut: Cut, s: seq<Component>, k: nat, g: nat)
    requires Lists(e.lister) && 0 < k < |s| && EndsWithActor(e, s) && g > 0 && Usable(e.cfg)
    requires IsChain(cut.source.graph, s[..k]) && IsChain(cut.sink.graph, s[k..])
    requires Nodes(cut.source.graph) !! Nodes(cut.sink.graph)
    requires Schedule(e, cut.source.graph, g).Returned? && Schedule(e, cut.sink.graph, g).Returned?
    requires Schedule(e, cut.source.graph, g).value.Some? && Schedule(e, cut.sink.graph, g).value.Some?
    ensures SharedAt(e, cut, g)
  {
    hide Schedule, Merge, IsChain, WellPlaced, Nodes, LastActorHasAll, ActorOnAll;
    var source, sink := Schedule(e, cut.source.graph, g).value.value, Schedule(e, cut.sink.graph, g).value.value;
    ChainWellPlaced(e, cut.source.graph, s[..k], g, source);
    ChainWellPlaced(e, cut.sink.graph, s[k..], g, sink);
    ActorPlaced(e, cut.sink.graph, s[k..], g, sink);
    ChainHasNodes(cut.source.graph, s[..k]);
    ChainHasNodes(cut.sink.graph, s[k..]);
    MergeRaisesIff(e.cfg, g, source, Nodes(cut.source.graph), sink, Nodes(cut.sink.graph), true, 1);
    MergeFoundIff(e.cfg, g, source, Nodes(cut.source.graph), sink, Nodes(cut.sink.graph), true, 1);
    var r := Merge(e.cfg, g, Some(source), Some(sink), true, 1);
    assert MergedFrom(e, cut, g, g, g, true, r.value.value);
  }

  lemma ActorPlaced(e: Setup, g: Graph, s: seq<Component>, n: nat, r: ScheduleResult)
    requires Lists(e.lister) && IsChain(g, s) && n > 0 && Schedule(e, g, n) == Returned(Some(r))
    requires e.cfg.taskType.Embodiment?
    ensures r.placement != [] && LastActorHasAll(r.placement, n)
  {
    ChainForward(g, s);
    ChainWellPlaced(e, g, s, n, r);
    PlacedWithin(r, Nodes(g));
    hide Schedule, IsChain, Acyclic, ForwardOrder, WellPlaced, PricedByLeaves, Nodes;
    ScheduleIsSound(e, g, n, r);
  }

  lemma SharedTotal(e: Setup, cut: Cut, g: nat, c: ScheduleResult)
    requires Lists(e.lister) && MergedFrom(e, cut, g, g, g, true, c)
    ensures Schedule(e, cut.source.graph, g).Returned? && Schedule(e, cut.source.graph, g).value.Some?
    ensures Schedule(e, cut.sink.graph, g).Returned? && Schedule(e, cut.sink.graph, g).value.Some?
    ensures c.totalCost == Schedule(e, cut.source.graph, g).value.value.totalCost
      + Schedule(e, cut.sink.graph, g).value.value.totalCost
  {
    hide Schedule, Merge;
    var source, sink := Schedule(e, cut.source.graph, g).value, Schedule(e, cut.sink.graph, g).value;
    MergeNeedsBoth(e.cfg, g, source, sink, true, c);
    SharedPrice(e.cfg, g, source.value, sink.value, 1, c);
  }

  /** What is best for the cut, and when there is anything: sharing the GPUs, if both sides can run on all of them. */
  lemma ActorCut(e: Setup, cut: Cut, s: seq<Component>, k: nat, g: nat)
    requires Lists(e.lister) && 0 < k < |s| && EndsWithActor(e, s) && g > 0 && Usable(e.cfg)
    requires IsChain(cut.source.graph, s[..k]) && IsChain(cut.sink.graph, s[k..])
    requires Nodes(cut.source.graph) !! Nodes(cut.sink.graph)
    requires Schedule(e, cut.source.graph, g).Returned? && Schedule(e, cut.sink.graph, g).Returned?
    ensures Tried(e, cut, g)
      <==> Schedule(e, cut.source.graph, g).value.Some? && Schedule(e, cut.sink.graph, g).value.Some?
    ensures forall c :: Candidate(e, cut, g, c) ==>
      && Schedule(e, cut.source.graph, g).value.Some? && Schedule(e, cut.sink.graph, g).value.Some?
      && c.totalCost == Schedule(e, cut.source.graph, g).value.value.totalCost
        + Schedule(e, cut.sink.graph, g).value.value.totalCost
  {
    hide Schedule, IsChain, Nodes, MergedFrom, Tried, SharedAt, PipelinedAt;
    TriedEitherWay(e, cut, g);
    forall n: nat | 1 <= n
      ensures !PipedAt(e, cut, n, g)
    {
      NoActorPipe(e, cut, n, g, s, k);
    }
    forall c | Candidate(e, cut, g, c)
      ensures Schedule(e, cut.source.graph, g).value.Some? && Schedule(e, cut.sink.graph, g).value.Some?
      ensures c.totalCost == Schedule(e, cut.source.graph, g).value.value.totalCost
        + Schedule(e, cut.sink.graph, g).value.value.totalCost
    {
      SharedOrPiped(e, cut, g, c);
      SharedTotal(e, cut, g, c);
    }
    if SharedAt(e, cut, g) {
      SharedMeans(e, cut, g);
    }
    if Schedule(e, cut.source.graph, g).value.Some? && Schedule(e, cut.sink.graph, g).value.Some? {
      SharesIfFound(e, cut, s, k, g);
    }
  }

  lemma SharedMeans(e: Setup, cut: Cut, g: nat)
    requires Lists(e.lister) && SharedAt(e, cut, g)
    ensures Schedule(e, cut.source.graph, g).Returned? && Schedule(e, cut.source.graph, g).value.Some?
    ensures Schedule(e, cut.sink.graph, g).Returned? && Schedule(e, cut.sink.graph, g).value.Some?
  {
    hide Schedule, MergedFrom;
    var c :| MergedFrom(e, cut, g, g, g, true, c);
    SharedTotal(e, cut, g, c);
  }

  lemma SharedOrPiped(e: Setup, cut: Cut, g: nat, c: ScheduleResult)
    requires Lists(e.lister) && Candidate(e, cut, g, c)
    ensures MergedFrom(e, cut, g, g, g, true, c) || exists n: nat :: 1 <= n && PipedAt(e, cut, n, g)
  {
    hide MergedFrom, PipelinedAt;
    if !MergedFrom(e, cut, g, g, g, true, c) {
      var n: nat :| 1 <= n && PipelinedAt(e, cut, n, g, c);
      assert PipedAt(e, cut, n, g);
    }
  }

  lemma LeafCost(e: Setup, g: Graph, s: seq<Component>, n: nat)
    requires Lists(e.lister) && IsChain(g, s) && AllPlain(s) && |s| == 1 && n > 0 && Usable(e.cfg)
    ensures var f := Schedule(e, g, n);
      && f.Returned? && (f.value.Some? <==> e.profile(s[0], n).Some?)
      && (f.value.Some? ==> f.value.value.totalCost == LeafTotal(e, s[0], n))
  {
    hide *;
    OneOf(s);
    ChainSearch(e, g, s, n);
    LeafOf(e, s[0], n);
  }

  lemma LeafOf(e: Setup, v: Component, n: nat)
    requires v.Plain? && Usable(e.cfg)
    ensures var f := LeafSchedule(e, v, n);
      && f.Returned? && (f.value.Some? <==> e.profile(v, n).Some?)
      && (f.value.Some? ==> f.value.value.totalCost == LeafTotal(e, v, n))
  {
  }

  /** What a pair costs on all GPUs, if there is any way. */
  lemma PairCost(e: Setup, a: Component, b: Component, g: nat, f: Found)
    requires PairResult(e, a, b, g, f)
    ensures f.Returned? && (f.value.Some? <==> PairShares(e, a, b, g) || PairPipes(e, a, b, g))
    ensures f.value.Some? && PairShares(e, a, b, g) ==> f.value.value.totalCost == SharedCost(e, a, b, g)
    ensures f.value.Some? && PairPipes(e, a, b, g) ==> CheapestPipe(e, a, b, g, g, f.value.value.totalCost)
    ensures SplitFits(e, a, g, b, g) ==> f.value.Some? && f.value.value.totalCost <= SharedCost(e, a, b, g)
    ensures LastActor(e, b) ==> !PairPipes(e, a, b, g)
    ensures PairShares(e, a, b, g) ==> SplitFits(e, a, g, b, g)
  {
    if SplitFits(e, a, g, b, g) {
      PairDecides(e, a, b, g);
    }
    NotBeatenMeans(e, a, b, g);
    hide SharedCost, PipedCost, SplitFits, LastActor;
  }

  /** Two components that can share the GPUs have a best way. */
  lemma PairDecides(e: Setup, a: Component, b: Component, g: nat)
    requires SplitFits(e, a, g, b, g)
    ensures PairShares(e, a, b, g) || PairPipes(e, a, b, g)
  {
    hide SharedCost, PipedCost;
    if !PairShares(e, a, b, g) {
      var n: nat :| PipeAt(e, a, b, n, g) && SharedCost(e, a, b, g) >= PipedCost(e, a, n, b, g - n);
      assert NotBeaten(e, a, b, n, g);
    }
  }

  lemma NotBeatenMeans(e: Setup, a: Component, b: Component, g: nat)
    ensures PairPipes(e, a, b, g) && SplitFits(e, a, g, b, g) ==>
      exists n: nat :: n < g && PipeAt(e, a, b, n, g) && PipedCost(e, a, n, b, g - n) <= SharedCost(e, a, b, g)
  {
    hide SharedCost, PipedCost;
    if PairPipes(e, a, b, g) && SplitFits(e, a, g, b, g) {
      var n: nat :| PipeAt(e, a, b, n, g) && NotBeaten(e, a, b, n, g);
      assert n < g;
    }
  }

  ghost predicate ActorTriple(e: Setup, s: seq<Component>) {
    Lists(e.lister) && Usable(e.cfg) && AllPlain(s) && |s| == 3 && EndsWithActor(e, s)
  }

  /** The first cut: everything shares all GPUs. */
  lemma ActorFirstCut(e: Setup, cut: Cut, s: seq<Component>, gpuNum: nat)
    requires ActorTriple(e, s) && Lists(e.lister) && gpuNum > 0
    requires IsChain(cut.source.graph, s[..1]) && IsChain(cut.sink.graph, s[1..])
    requires Nodes(cut.source.graph) !! Nodes(cut.sink.graph)
    ensures Tried(e, cut, gpuNum) <==> e.profile(s[0], gpuNum).Some? && SplitFits(e, s[1], gpuNum, s[2], gpuNum)
    ensures forall c :: Candidate(e, cut, gpuNum, c) ==>
      && e.profile(s[0], gpuNum).Some? && e.profile(s[1], gpuNum).Some? && e.profile(s[2], gpuNum).Some?
      && c.totalCost == LeafTotal(e, s[0], gpuNum) + SharedCost(e, s[1], s[2], gpuNum)
  {
    hide *;
    ActorMeans(e, s);
    LeafCost(e, cut.source.graph, s[..1], gpuNum);
    PairGives(e, cut.sink.graph, s[1..], gpuNum);
    PairCost(e, s[1], s[2], gpuNum, Schedule(e, cut.sink.graph, gpuNum));
    ActorPair(e, s[1], s[2], gpuNum);
    ActorCut(e, cut, s, 1, gpuNum);
  }

  /** The second cut: whatever is best for the first two, and the actor. */
  lemma ActorSecondCut(e: Setup, cut: Cut, s: seq<Component>, gpuNum: nat)
    requires ActorTriple(e, s) && Lists(e.lister) && gpuNum > 0
    requires IsChain(cut.source.graph, s[..2]) && IsChain(cut.sink.graph, s[2..])
    requires Nodes(cut.source.graph) !! Nodes(cut.sink.graph)
    ensures Tried(e, cut, gpuNum) <==>
      (PairShares(e, s[0], s[1], gpuNum) || PairPipes(e, s[0], s[1], gpuNum)) && e.profile(s[2], gpuNum).Some?
    ensures forall c :: Candidate(e, cut, gpuNum, c) ==> ActorTotal(e, s, gpuNum, c.totalCost)
  {
    hide *;
    ActorMeans(e, s);
    var f := Schedule(e, cut.source.graph, gpuNum);
    PairGives(e, cut.source.graph, s[..2], gpuNum);
    PairCost(e, s[0], s[1], gpuNum, f);
    LeafCost(e, cut.sink.graph, s[2..], gpuNum);
    ActorCut(e, cut, s, 2, gpuNum);
    forall c | Candidate(e, cut, gpuNum, c)
      ensures ActorTotal(e, s, gpuNum, c.totalCost)
    {
      IsActorTotal(e, s, gpuNum, f.value.value.totalCost, c.totalCost);
    }
  }

  lemma IsActorTotal(e: Setup, s: seq<Component>, gpuNum: nat, pair: real, total: real)
    requires |s| == 3 && e.profile(s[2], gpuNum).Some? && total == pair + LeafTotal(e, s[2], gpuNum)
    requires PairShares(e, s[0], s[1], gpuNum) || PairPipes(e, s[0], s[1], gpuNum)
    requires SplitFits(e, s[0], gpuNum, s[1], gpuNum) ==> pair <= SharedCost(e, s[0], s[1], gpuNum)
    requires PairShares(e, s[0], s[1], gpuNum) ==>
      SplitFits(e, s[0], gpuNum, s[1], gpuNum) && pair == SharedCost(e, s[0], s[1], gpuNum)
    requires PairPipes(e, s[0], s[1], gpuNum) ==> CheapestPipe(e, s[0], s[1], gpuNum, gpuNum, pair)
    ensures ActorTotal(e, s, gpuNum, total)
  {
    hide PairShares, PairPipes, CheapestPipe, SplitFits, LeafTotal;
    assert total - LeafTotal(e, s[2], gpuNum) == pair;
  }

  /** The cost of what is best for the first two, and of the actor on all GPUs. */
  ghost predicate ActorTotal(e: Setup, s: seq<Component>, gpuNum: nat, total: real) {
    && |s| == 3 && e.profile(s[2], gpuNum).Some?
    && (PairShares(e, s[0], s[1], gpuNum) || PairPipes(e, s[0], s[1], gpuNum))
    && var rest := total - LeafTotal(e, s[2], gpuNum);
       && (SplitFits(e, s[0], gpuNum, s[1], gpuNum) ==> rest <= SharedCost(e, s[0], s[1], gpuNum))
       && (PairShares(e, s[0], s[1], gpuNum) ==>
         SplitFits(e, s[0], gpuNum, s[1], gpuNum) && rest == SharedCost(e, s[0], s[1], gpuNum))
       && (PairPipes(e, s[0], s[1], gpuNum) ==> CheapestPipe(e, s[0], s[1], gpuNum, gpuNum, rest))
  }

  /** The first cut is never cheaper. */
  lemma FirstNoCheaper(e: Setup, s: seq<Component>, gpuNum: nat, first: real, second: real)
    requires ActorTotal(e, s, gpuNum, second)
    requires e.profile(s[0], gpuNum).Some? && e.profile(s[1], gpuNum).Some?
    requires first == LeafTotal(e, s[0], gpuNum) + SharedCost(e, s[1], s[2], gpuNum)
    ensures second <= first
  {
    hide PairShares, PairPipes, CheapestPipe, LeafTotal;
  }

  lemma BothTried(e: Setup, s: seq<Component>, gpuNum: nat)
    requires |s| == 3 && e.profile(s[0], gpuNum).Some? && SplitFits(e, s[1], gpuNum, s[2], gpuNum)
    ensures (PairShares(e, s[0], s[1], gpuNum) || PairPipes(e, s[0], s[1], gpuNum)) && e.profile(s[2], gpuNum).Some?
  {
    hide SharedCost, PipedCost, PairShares, PairPipes;
    PairDecides(e, s[0], s[1], gpuNum);
  }

  /**
   * Three components in a row that end with the actor, as in the toolkit's embodiment tasks: the search never raises,
   * it finds a schedule exactly if there is one for the first two and the actor can run on all GPUs, and the schedule
   * costs what is best for the first two, shared or pipelined, and the actor.
   */
  lemma ActorTripleGives(e: Setup, g: Graph, s: seq<Component>, gpuNum: nat)
    requires ActorTriple(e, s) && Lists(e.lister) && IsChain(g, s) && gpuNum > 0
    ensures var f := Schedule(e, g, gpuNum);
      && f.Returned?
      && (f.value.Some? <==>
        (PairShares(e, s[0], s[1], gpuNum) || PairPipes(e, s[0], s[1], gpuNum)) && e.profile(s[2], gpuNum).Some?)
      && (f.value.Some? ==> ActorTotal(e, s, gpuNum, f.value.value.totalCost))
  {
    hide *;
    ActorMeans(e, s);
    ChainIsPlain(g, s);
    SearchIsFine(e, g, gpuNum);
    FineReturns(e, g, gpuNum);
    FoundIfTried(e, g, s, gpuNum);
    TwoCuts(e.lister, g, s);
    var cuts := Cuts(e.lister, MakeWorkflow(e.lister, g));
    SidesDisjoint(e, g, s, 0);
    SidesDisjoint(e, g, s, 1);
    OneOfTwo(e, cuts, gpuNum);
    ActorFirstCut(e, cuts[0], s, gpuNum);
    ActorSecondCut(e, cuts[1], s, gpuNum);
    if e.profile(s[0], gpuNum).Some? && SplitFits(e, s[1], gpuNum, s[2], gpuNum) {
      BothTried(e, s, gpuNum);
    }
    if Schedule(e, g, gpuNum).value.Some? {
      BestOfTwo(e, g, s, gpuNum, cuts, Schedule(e, g, gpuNum).value.value);
    }
  }

  lemma BestOfTwo(e: Setup, g: Graph, s: seq<Component>, gpuNum: nat, cuts: seq<Cut>, r: ScheduleResult)
    requires Lists(e.lister) && IsChain(g, s) && |s| == 3 && Schedule(e, g, gpuNum) == Returned(Some(r))
    requires cuts == Cuts(e.lister, MakeWorkflow(e.lister, g)) && |cuts| == 2 && Tried(e, cuts[1], gpuNum)
    requires forall c :: Candidate(e, cuts[0], gpuNum, c) ==>
      && e.profile(s[0], gpuNum).Some? && e.profile(s[1], gpuNum).Some? && e.profile(s[2], gpuNum).Some?
      && c.totalCost == LeafTotal(e, s[0], gpuNum) + SharedCost(e, s[1], s[2], gpuNum)
    requires forall c :: Candidate(e, cuts[1], gpuNum, c) ==> ActorTotal(e, s, gpuNum, c.totalCost)
    ensures ActorTotal(e, s, gpuNum, r.totalCost)
  {
    hide Schedule, Candidate, IsChain, Cuts, MakeWorkflow, ActorTotal, SharedCost, LeafTotal;
    ChainOrder(e.lister, g, s);
    ScheduleIsBest(e, g, gpuNum, Some(r));
    var k :| 0 <= k < |cuts| && Candidate(e, cuts[k], gpuNum, r);
    if k == 0 {
      var c :| Candidate(e, cuts[1], gpuNum, c);
      assert NoDearer(Some(r), c);
      FirstNoCheaper(e, s, gpuNum, r.totalCost, c.totalCost);
    }
  }

  lemma ActorMeans(e: Setup, s: seq<Component>)
    requires ActorTriple(e, s)
    ensures Lists(e.lister) && Usable(e.cfg) && |s| == 3 && EndsWithActor(e, s) && AllPlain(s) && LastActor(e, s[2])
    ensures AllPlain(s[..1]) && AllPlain(s[1..]) && AllPlain(s[..2]) && AllPlain(s[2..])
    ensures s[..1][0] == s[0] && s[1..][0] == s[1] && s[1..][1] == s[2]
    ensures s[..2][0] == s[0] && s[..2][1] == s[1] && s[2..][0] == s[2]
  {
  }

  lemma ActorPair(e: Setup, a: Component, b: Component, g: nat)
    requires LastActor(e, b)
    ensures PairShares(e, a, b, g) <==> SplitFits(e, a, g, b, g)
    ensures SplitFits(e, a, g, b, g) <==> e.profile(a, g).Some? && e.profile(b, g).Some?
  {
  }

  lemma SidesDisjoint(e: Setup, g: Graph, s: seq<Component>, k: nat)
    requires Lists(e.lister) && IsChain(g, s) && k + 1 < |s|
    ensures var cuts := Cuts(e.lister, MakeWorkflow(e.lister, g));
      k < |cuts| && Nodes(cuts[k].source.graph) !! Nodes(cuts[k].sink.graph)
  {
    hide Cuts, MakeWorkflow, IsChain, Nodes, Restrict, Acyclic, IsForwardCut;
    ChainCuts(e.lister, g, s);
    var a, b := CutSides(e.lister, g, k);
    WorkflowGraph(e.lister, Restrict(g, a));
    WorkflowGraph(e.lister, Restrict(g, b));
    RestrictEdges(g, a);
    RestrictEdges(g, b);
  }
}
