/** When the search over two or three components in a row finds a schedule at all. */
module FoundIff {
  import opened Graphs
  import opened Wrappers
  import opened Workflows
  import opened Placement
  import opened Scheduling
  import opened ScheduleProps
  import opened Chains
  import opened FewGpus
  import opened LongChains

  /** Some merge of the cut is not refused. */
  ghost predicate Tried(e: Setup, cut: Cut, gpuNum: nat)
    requires Lists(e.lister)
  {
    exists c :: Candidate(e, cut, gpuNum, c)
  }

  /** If the search does not raise, it finds a schedule exactly if some merge of some cut is not refused. */
  lemma FoundIfTried(e: Setup, g: Graph, s: seq<Component>, gpuNum: nat)
    requires Lists(e.lister) && IsChain(g, s) && |s| > 1 && Schedule(e, g, gpuNum).Returned?
    ensures var cuts := Cuts(e.lister, MakeWorkflow(e.lister, g));
      Schedule(e, g, gpuNum).value.Some? <==> exists k :: 0 <= k < |cuts| && Tried(e, cuts[k], gpuNum)
  {
    hide Schedule, Candidate, IsChain, Cuts, MakeWorkflow;
    ChainOrder(e.lister, g, s);
    var r, cuts := Schedule(e, g, gpuNum).value, Cuts(e.lister, MakeWorkflow(e.lister, g));
    ScheduleIsBest(e, g, gpuNum, r);
    if r.Some? {
      var k :| 0 <= k < |cuts| && Candidate(e, cuts[k], gpuNum, r.value);
      assert Tried(e, cuts[k], gpuNum);
    }
    if k :| 0 <= k < |cuts| && Tried(e, cuts[k], gpuNum) {
      var c :| Candidate(e, cuts[k], gpuNum, c);
      assert NoDearer(r, c);
    }
  }

  // ---------------------------------------------------------------- merges of single components

  function LeafResult(e: Setup, v: Component, n: nat): ScheduleResult
    requires e.profile(v, n).Some? && Usable(e.cfg)
  {
    var cost := e.profile(v, n).value;
    if e.cfg.taskType.Reasoning? then NewSingle(n, v, cost, cost * e.cfg.rolloutBatchSize as real)
    else NewSingle(n, v, cost / e.cfg.envNum as real, cost)
  }

  lemma LeafFinds(e: Setup, v: Component, n: nat)
    requires v.Plain? && Usable(e.cfg)
    ensures LeafSchedule(e, v, n) ==
      if e.profile(v, n).None? then Returned(None) else Returned(Some(LeafResult(e, v, n)))
  {
    match e.profile(v, n)
    case None =>
    case Some(cost) =>
      if e.cfg.taskType.Reasoning? {
        assert LeafResult(e, v, n) == NewSingle(n, v, cost, cost * e.cfg.rolloutBatchSize as real);
      } else {
        assert LeafResult(e, v, n) == NewSingle(n, v, cost / e.cfg.envNum as real, cost);
      }
  }

  /** Two components can always share their GPUs. */
  lemma LeavesShare(e: Setup, a: Component, b: Component, n: nat)
    requires Usable(e.cfg) && e.profile(a, n).Some? && e.profile(b, n).Some?
    ensures var r := Merge(e.cfg, n, Some(LeafResult(e, a, n)), Some(LeafResult(e, b, n)), true, 1);
      r.Returned? && r.value.Some?
  {
    SharedMerge(e.cfg, n, LeafResult(e, a, n), LeafResult(e, b, n));
  }

  /** They can be pipelined unless the second one is the actor of an embodiment task, which must have all GPUs. */
  lemma LeavesPipeline(e: Setup, a: Component, m: nat, b: Component, n: nat)
    requires Usable(e.cfg) && e.profile(a, m).Some? && e.profile(b, n).Some? && m > 0 && n > 0 && a != b
    ensures var r := Merge(e.cfg, m + n, Some(LeafResult(e, a, m)), Some(LeafResult(e, b, n)), false, 1);
      r.Returned? && (r.value.Some? <==> !LastActor(e, b))
  {
    var source, sink := LeafResult(e, a, m), LeafResult(e, b, n);
    var shifted := Shifted(sink.placement, m);
    assert shifted == [Entry(b, m, n + m)];
    AddOther(Entry(a, 0, m), Entry(b, m, n + m));
  }

  lemma AddOther(x: Entry, y: Entry)
    requires x.node != y.node
    ensures DictUpdate([x], [y]) == [x, y]
  {
    assert [x][1..] == [] && [y][1..] == [];
    assert DictSet([], y) == [y];
    assert DictSet([x], y) == [x] + [y] == [x, y];
    assert DictUpdate([x, y], []) == [x, y];
  }

  predicate LastActor(e: Setup, b: Component) {
    e.cfg.taskType.Embodiment? && b == Plain("actor")
  }

  // ---------------------------------------------------------------- two components

  /** Both can run on all GPUs, or on the two parts of a split the loop visits. */
  ghost predicate PairFits(e: Setup, a: Component, b: Component, gpuNum: nat) {
    (e.profile(a, gpuNum).Some? && e.profile(b, gpuNum).Some?)
    || (!LastActor(e, b) && exists n: nat :: 1 <= n && SplitAt(e, a, b, n, gpuNum))
  }

  ghost predicate SplitFits(e: Setup, a: Component, m: nat, b: Component, n: nat) {
    e.profile(a, m).Some? && e.profile(b, n).Some?
  }

  /** The split leaves `gpuNum - n` GPUs to the second component, and the loop visits it. */
  ghost predicate SplitAt(e: Setup, a: Component, b: Component, n: nat, gpuNum: nat) {
    n < gpuNum - 1 && SplitFits(e, a, n, b, gpuNum - n)
  }

  /** The sides of the cut are the components `a` and `b`. */
  ghost predicate LeafCut(e: Setup, cut: Cut, a: Component, b: Component)
    requires Lists(e.lister)
  {
    forall n ::
      Schedule(e, cut.source.graph, n) == LeafSchedule(e, a, n)
        && Schedule(e, cut.sink.graph, n) == LeafSchedule(e, b, n)
  }

  lemma SharedTried(e: Setup, cut: Cut, a: Component, b: Component, gpuNum: nat)
    requires Lists(e.lister) && LeafCut(e, cut, a, b) && a.Plain? && b.Plain? && Usable(e.cfg)
    ensures SharedAt(e, cut, gpuNum) <==> SplitFits(e, a, gpuNum, b, gpuNum)
  {
    LeafFinds(e, a, gpuNum);
    LeafFinds(e, b, gpuNum);
    hide Schedule, Merge, LeafSchedule, LeafResult;
    assert Schedule(e, cut.source.graph, gpuNum) == LeafSchedule(e, a, gpuNum);
    if SplitFits(e, a, gpuNum, b, gpuNum) {
      LeavesShare(e, a, b, gpuNum);
      var r := Merge(e.cfg, gpuNum, Some(LeafResult(e, a, gpuNum)), Some(LeafResult(e, b, gpuNum)), true, 1);
      assert MergedFrom(e, cut, gpuNum, gpuNum, gpuNum, true, r.value.value);
    } else {
      MergeOfNone(e.cfg, gpuNum, Schedule(e, cut.source.graph, gpuNum).value, Schedule(e, cut.sink.graph, gpuNum).value,
        true);
    }
  }

  lemma SplitTried(e: Setup, cut: Cut, a: Component, b: Component, n: nat, gpuNum: nat)
    requires Lists(e.lister) && LeafCut(e, cut, a, b) && a.Plain? && b.Plain? && a != b && Usable(e.cfg)
      && 1 <= n < gpuNum - 1
    ensures PipedAt(e, cut, n, gpuNum) <==> SplitAt(e, a, b, n, gpuNum) && !LastActor(e, b)
  {
    hide Schedule, Merge, LeafSchedule, LeafResult, LastActor;
    LeafFinds(e, a, n);
    LeafFinds(e, b, gpuNum - n);
    assert Schedule(e, cut.source.graph, n) == LeafSchedule(e, a, n);
    assert Schedule(e, cut.sink.graph, gpuNum - n) == LeafSchedule(e, b, gpuNum - n);
    hide LeafCut, Usable;
    if SplitFits(e, a, n, b, gpuNum - n) {
      LeavesPipeline(e, a, n, b, gpuNum - n);
      var r := Merge(e.cfg, gpuNum, Some(LeafResult(e, a, n)), Some(LeafResult(e, b, gpuNum - n)), false, 1);
      if r.value.Some? {
        assert PipelinedAt(e, cut, n, gpuNum, r.value.value);
      }
    } else {
      MergeOfNone(e.cfg, gpuNum, Schedule(e, cut.source.graph, n).value, Schedule(e, cut.sink.graph, gpuNum - n).value,
        false);
    }
  }

  ghost predicate PipedAt(e: Setup, cut: Cut, n: nat, gpuNum: nat)
    requires Lists(e.lister)
  {
    exists c :: PipelinedAt(e, cut, n, gpuNum, c)
  }

  ghost predicate SharedAt(e: Setup, cut: Cut, gpuNum: nat)
    requires Lists(e.lister)
  {
    exists c :: MergedFrom(e, cut, gpuNum, gpuNum, gpuNum, true, c)
  }

  /** A cut is tried with success by sharing all GPUs or by one of the splits. */
  lemma TriedEitherWay(e: Setup, cut: Cut, gpuNum: nat)
    requires Lists(e.lister)
    ensures Tried(e, cut, gpuNum) <==> SharedAt(e, cut, gpuNum) || exists n: nat :: 1 <= n && PipedAt(e, cut, n, gpuNum)
  {
    hide MergedFrom, PipelinedAt;
    if Tried(e, cut, gpuNum) {
      var c :| Candidate(e, cut, gpuNum, c);
      if !MergedFrom(e, cut, gpuNum, gpuNum, gpuNum, true, c) {
        var n: nat :| 1 <= n && PipelinedAt(e, cut, n, gpuNum, c);
        assert PipedAt(e, cut, n, gpuNum);
      }
    }
    if SharedAt(e, cut, gpuNum) {
      var c :| MergedFrom(e, cut, gpuNum, gpuNum, gpuNum, true, c);
      assert Candidate(e, cut, gpuNum, c);
    }
    if n: nat :| 1 <= n && PipedAt(e, cut, n, gpuNum) {
      var c :| PipelinedAt(e, cut, n, gpuNum, c);
      assert Candidate(e, cut, gpuNum, c);
    }
  }

  lemma NotPiped(e: Setup, cut: Cut, n: nat, gpuNum: nat)
    requires Lists(e.lister) && PipedAt(e, cut, n, gpuNum)
    ensures n < gpuNum - 1
  {
    hide MergedFrom;
  }

  lemma PairTried(e: Setup, cut: Cut, a: Component, b: Component, gpuNum: nat)
    requires Lists(e.lister) && LeafCut(e, cut, a, b) && a.Plain? && b.Plain? && a != b && Usable(e.cfg)
    ensures Tried(e, cut, gpuNum) <==> PairFits(e, a, b, gpuNum)
  {
    hide LeafCut, Tried, SharedAt, PipedAt, SplitFits;
    SharedTried(e, cut, a, b, gpuNum);
    TriedEitherWay(e, cut, gpuNum);
    forall n: nat | 1 <= n
      ensures PipedAt(e, cut, n, gpuNum) <==> SplitAt(e, a, b, n, gpuNum) && !LastActor(e, b)
    {
      if n < gpuNum - 1 {
        SplitTried(e, cut, a, b, n, gpuNum);
      } else if PipedAt(e, cut, n, gpuNum) {
        NotPiped(e, cut, n, gpuNum);
      }
    }
    SharesMeans(e, a, b, gpuNum);
  }

  lemma SharesMeans(e: Setup, a: Component, b: Component, gpuNum: nat)
    ensures SplitFits(e, a, gpuNum, b, gpuNum) <==> e.profile(a, gpuNum).Some? && e.profile(b, gpuNum).Some?
  {
  }

  lemma LeafSides(e: Setup, cut: Cut, s: seq<Component>, k: nat)
    requires Lists(e.lister) && 0 < k < |s| && IsChain(cut.source.graph, s[..k]) && IsChain(cut.sink.graph, s[k..])
    ensures k == 1 ==> forall n :: Schedule(e, cut.source.graph, n) == LeafSchedule(e, s[0], n)
    ensures k == |s| - 1 ==> forall n :: Schedule(e, cut.sink.graph, n) == LeafSchedule(e, s[k], n)
  {
    assert s[..k][0] == s[0] && s[k..][0] == s[k];
    hide *;
    forall n: nat
      ensures k == 1 ==> Schedule(e, cut.source.graph, n) == LeafSchedule(e, s[0], n)
      ensures k == |s| - 1 ==> Schedule(e, cut.sink.graph, n) == LeafSchedule(e, s[k], n)
    {
      ChainSearch(e, cut.source.graph, s[..k], n);
      ChainSearch(e, cut.sink.graph, s[k..], n);
    }
  }

  lemma TwoDistinct(g: Graph, s: seq<Component>)
    requires IsChain(g, s) && |s| > 1 && AllPlain(s)
    ensures s[0] != s[1] && s[0].Plain? && s[1].Plain?
  {
    ChainDistinct(g, s);
  }

  lemma PairCut(e: Setup, g: Graph, s: seq<Component>)
    requires Lists(e.lister) && IsChain(g, s) && |s| == 2
    ensures var cuts := Cuts(e.lister, MakeWorkflow(e.lister, g)); |cuts| == 1 && LeafCut(e, cuts[0], s[0], s[1])
  {
    hide Schedule, IsChain, LeafSchedule, Cuts, MakeWorkflow, CutsBelow, OverCuts;
    ChainSearch(e, g, s, 1);
    LeafSides(e, Cuts(e.lister, MakeWorkflow(e.lister, g))[0], s, 1);
  }

  /** Two components in a row: the search never raises, and finds a schedule exactly if the pair fits. */
  lemma PairFoundIff(e: Setup, g: Graph, s: seq<Component>, gpuNum: nat)
    requires Lists(e.lister) && IsChain(g, s) && AllPlain(s) && |s| == 2 && Usable(e.cfg) && gpuNum > 0
    ensures var f := Schedule(e, g, gpuNum); f.Returned? && (f.value.Some? <==> PairFits(e, s[0], s[1], gpuNum))
  {
    hide *;
    ChainIsPlain(g, s);
    SearchIsFine(e, g, gpuNum);
    FineReturns(e, g, gpuNum);
    FoundIfTried(e, g, s, gpuNum);
    PairCut(e, g, s);
    TwoDistinct(g, s);
    PairTried(e, Cuts(e.lister, MakeWorkflow(e.lister, g))[0], s[0], s[1], gpuNum);
  }
}
