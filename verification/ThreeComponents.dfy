/** Three components of a reasoning task in a row: exactly when the search finds a schedule. */
module ThreeComponents {
  import opened Graphs
  import opened Wrappers
  import opened Workflows
  import opened Placement
  import opened Scheduling
  import opened ScheduleProps
  import opened Chains
  import opened FewGpus
  import opened LongChains
  import opened FoundIff

  // ---------------------------------------------------------------- merges of a reasoning task

  /** A search on `n` GPUs returned, and a result uses all of them and leaves no component without. */
  ghost predicate Sized(f: Found, n: nat) {
    f.Returned? && (f.value.Some? ==> f.value.value.totalGpuNum == n && AllNonEmpty(f.value.value.placement))
  }

  /** In a reasoning task: there is a result, and it can share its GPUs with another. */
  predicate CanShare(f: Found) {
    f.Returned? && f.value.Some? && !f.value.value.Disaggregated?
  }

  /** And it can be pipelined with another. */
  predicate CanPipe(f: Found) {
    f.Returned? && f.value.Some? && !f.value.value.Collocated?
  }

  /** Parts that have the same GPUs share them unless one is pipelined. */
  lemma ShareUnlessPiped(cfg: Config, gpuNum: nat, source: ScheduleResult, sink: ScheduleResult)
    requires cfg.taskType.Reasoning? && source.totalGpuNum == sink.totalGpuNum == gpuNum
    ensures var r := Merge(cfg, gpuNum, Some(source), Some(sink), true, 1);
      r.Returned? && (r.value.Some? <==> !source.Disaggregated? && !sink.Disaggregated?)
  {
    hide DictUpdate;
  }

  /** Parts are pipelined unless one shares. */
  lemma PipeUnlessShared(cfg: Config, gpuNum: nat, source: ScheduleResult, sink: ScheduleResult)
    requires cfg.taskType.Reasoning? && source.totalGpuNum + sink.totalGpuNum == gpuNum && AllNonEmpty(sink.placement)
    ensures (exists c :: Merge(cfg, gpuNum, Some(source), Some(sink), false, 1) == Returned(Some(c)))
      <==> !source.Collocated? && !sink.Collocated?
  {
    hide DictUpdate, Shifted, Max, AllNonEmpty, WarmupOf;
    if !source.Collocated? && !sink.Collocated? {
      var r := Merge(cfg, gpuNum, Some(source), Some(sink), false, 1);
      assert r.Returned? && r == Returned(Some(r.value.value));
    }
  }

  lemma SharedIff(e: Setup, cut: Cut, gpuNum: nat)
    requires Lists(e.lister) && e.cfg.taskType.Reasoning?
    requires Sized(Schedule(e, cut.source.graph, gpuNum), gpuNum) && Sized(Schedule(e, cut.sink.graph, gpuNum), gpuNum)
    ensures SharedAt(e, cut, gpuNum)
      <==> CanShare(Schedule(e, cut.source.graph, gpuNum)) && CanShare(Schedule(e, cut.sink.graph, gpuNum))
  {
    var source, sink := Schedule(e, cut.source.graph, gpuNum).value, Schedule(e, cut.sink.graph, gpuNum).value;
    hide Schedule, Merge, AllNonEmpty;
    if source.Some? && sink.Some? {
      ShareUnlessPiped(e.cfg, gpuNum, source.value, sink.value);
      var r := Merge(e.cfg, gpuNum, source, sink, true, 1);
      if r.value.Some? {
        assert MergedFrom(e, cut, gpuNum, gpuNum, gpuNum, true, r.value.value);
      }
    } else {
      MergeOfNone(e.cfg, gpuNum, source, sink, true);
    }
  }

  lemma PipedIff(e: Setup, cut: Cut, n: nat, gpuNum: nat)
    requires Lists(e.lister) && e.cfg.taskType.Reasoning? && 1 <= n < gpuNum - 1
    requires Sized(Schedule(e, cut.source.graph, n), n)
      && Sized(Schedule(e, cut.sink.graph, gpuNum - n), gpuNum - n)
    ensures PipedAt(e, cut, n, gpuNum)
      <==> CanPipe(Schedule(e, cut.source.graph, n)) && CanPipe(Schedule(e, cut.sink.graph, gpuNum - n))
  {
    var source, sink := Schedule(e, cut.source.graph, n).value, Schedule(e, cut.sink.graph, gpuNum - n).value;
    hide Schedule, Merge, AllNonEmpty;
    if source.Some? && sink.Some? {
      PipeUnlessShared(e.cfg, gpuNum, source.value, sink.value);
      if c :| Merge(e.cfg, gpuNum, source, sink, false, 1) == Returned(Some(c)) {
        assert PipelinedAt(e, cut, n, gpuNum, c);
      }
    } else {
      MergeOfNone(e.cfg, gpuNum, source, sink, false);
    }
  }

  // ---------------------------------------------------------------- one component

  lemma LeafGives(e: Setup, v: Component, n: nat)
    requires v.Plain? && e.cfg.taskType.Reasoning? && n > 0
    ensures Sized(LeafSchedule(e, v, n), n)
    ensures CanShare(LeafSchedule(e, v, n)) <==> e.profile(v, n).Some?
    ensures CanPipe(LeafSchedule(e, v, n)) <==> e.profile(v, n).Some?
  {
  }

  // ---------------------------------------------------------------- two components

  /** What two components cost in all when they share the GPUs. */
  function SharedCost(e: Setup, a: Component, b: Component, gpuNum: nat): real
    requires e.profile(a, gpuNum).Some? && e.profile(b, gpuNum).Some?
  {
    LeafTotal(e, a, gpuNum) + LeafTotal(e, b, gpuNum)
  }

  /** What a component alone costs per group; there is at least one environment. */
  function LeafGroup(e: Setup, v: Component, gpuNum: nat): real
    requires e.profile(v, gpuNum).Some?
  {
    if e.cfg.taskType.Reasoning? then e.profile(v, gpuNum).value
    else if e.cfg.envNum > 0 then e.profile(v, gpuNum).value / e.cfg.envNum as real
    else 0.0
  }

  /** What a pipeline with `n` GPUs for the first and `m` for the second costs in all. */
  function PipedCost(e: Setup, a: Component, n: nat, b: Component, m: nat): real
    requires e.profile(a, n).Some? && e.profile(b, m).Some?
  {
    var x, y := LeafGroup(e, a, n), LeafGroup(e, b, m);
    x + y + (if x < y then y else x) * (e.cfg.rolloutBatchSize as real - 1.0)
  }

  /** A pipeline that the search tries with `n` GPUs for the first component, and that is not refused. */
  ghost predicate PipeAt(e: Setup, a: Component, b: Component, n: nat, gpuNum: nat) {
    1 <= n && SplitAt(e, a, b, n, gpuNum) && !LastActor(e, b)
  }

  /** The two can share the GPUs, and every pipeline the search tries is dearer. */
  ghost predicate PairShares(e: Setup, a: Component, b: Component, gpuNum: nat) {
    && SplitFits(e, a, gpuNum, b, gpuNum)
    && forall n: nat :: PipeAt(e, a, b, n, gpuNum) ==>
      SharedCost(e, a, b, gpuNum) < PipedCost(e, a, n, b, gpuNum - n)
  }

  /** A pipeline the search tries is possible and, if they can share, not dearer. */
  ghost predicate PairPipes(e: Setup, a: Component, b: Component, gpuNum: nat) {
    exists n: nat :: PipeAt(e, a, b, n, gpuNum) && NotBeaten(e, a, b, n, gpuNum)
  }

  ghost predicate NotBeaten(e: Setup, a: Component, b: Component, n: nat, gpuNum: nat)
    requires PipeAt(e, a, b, n, gpuNum)
  {
    SplitFits(e, a, gpuNum, b, gpuNum) ==> PipedCost(e, a, n, b, gpuNum - n) <= SharedCost(e, a, b, gpuNum)
  }

  /** The pipeline costs this much, and no other one below `s` costs less. */
  ghost predicate CheapestPipe(e: Setup, a: Component, b: Component, gpuNum: nat, s: nat, cost: real) {
    && (exists n: nat :: n < s && PipeAt(e, a, b, n, gpuNum) && cost == PipedCost(e, a, n, b, gpuNum - n))
    && forall n: nat :: n < s && PipeAt(e, a, b, n, gpuNum) ==> cost <= PipedCost(e, a, n, b, gpuNum - n)
  }

  /** The best merge of the pair so far, when the splits below `s` have been tried. */
  ghost predicate Standing(e: Setup, a: Component, b: Component, gpuNum: nat, s: nat, best: Option<ScheduleResult>) {
    match best
    case None => !SplitFits(e, a, gpuNum, b, gpuNum) && forall n: nat :: n < s ==> !PipeAt(e, a, b, n, gpuNum)
    case Some(Collocated(_, _, cost, _, _)) =>
      && SplitFits(e, a, gpuNum, b, gpuNum) && cost == SharedCost(e, a, b, gpuNum)
      && forall n: nat :: n < s && PipeAt(e, a, b, n, gpuNum) ==> cost < PipedCost(e, a, n, b, gpuNum - n)
    case Some(Disaggregated(_, _, cost, _, _, _, _)) =>
      && (SplitFits(e, a, gpuNum, b, gpuNum) ==> cost <= SharedCost(e, a, b, gpuNum))
      && CheapestPipe(e, a, b, gpuNum, s, cost)
    case Some(Single(_, _, _, _)) => false
  }

  /** What the search returns for a pair: the mode, and the cost of the cheapest way. */
  ghost predicate PairResult(e: Setup, a: Component, b: Component, gpuNum: nat, f: Found) {
    && f.Returned? && (f.value.Some? ==> !f.value.value.Single?)
    && (f.value.Some? && f.value.value.Collocated? <==> PairShares(e, a, b, gpuNum))
    && (f.value.Some? && f.value.value.Disaggregated? <==> PairPipes(e, a, b, gpuNum))
    && (f.value.Some? && f.value.value.Collocated? ==> f.value.value.totalCost == SharedCost(e, a, b, gpuNum))
    && (f.value.Some? && f.value.value.Disaggregated? ==>
      CheapestPipe(e, a, b, gpuNum, gpuNum, f.value.value.totalCost))
  }

  lemma StandingAfterAll(e: Setup, a: Component, b: Component, gpuNum: nat, s: nat, best: Option<ScheduleResult>)
    requires Standing(e, a, b, gpuNum, s, best) && s >= gpuNum - 1
    ensures PairResult(e, a, b, gpuNum, Returned(best))
  {
    hide SharedCost, PipedCost;
    assert forall n: nat :: PipeAt(e, a, b, n, gpuNum) ==> n < s && n < gpuNum;
    match best
    case None =>
    case Some(Collocated(_, _, cost, _, _)) =>
    case Some(Disaggregated(_, _, cost, _, _, _, _)) =>
      var n: nat :| n < s && PipeAt(e, a, b, n, gpuNum) && cost == PipedCost(e, a, n, b, gpuNum - n);
      assert NotBeaten(e, a, b, n, gpuNum);
  }

  /** A split that is not possible changes nothing. */
  lemma StandingSkips(e: Setup, a: Component, b: Component, gpuNum: nat, s: nat, best: Option<ScheduleResult>)
    requires Standing(e, a, b, gpuNum, s, best) && !PipeAt(e, a, b, s, gpuNum)
    ensures Standing(e, a, b, gpuNum, s + 1, best)
  {
    hide SplitFits, SharedCost, PipedCost, PipeAt;
  }

  lemma StandingNext(e: Setup, a: Component, b: Component, gpuNum: nat, s: nat, best: Option<ScheduleResult>,
      piped: ScheduleResult)
    requires Standing(e, a, b, gpuNum, s, best) && PipeAt(e, a, b, s, gpuNum)
    requires piped.Disaggregated? && piped.totalCost == PipedCost(e, a, s, b, gpuNum - s)
    ensures Standing(e, a, b, gpuNum, s + 1, FindBest(best, Some(piped)))
  {
    hide SharedCost, PipedCost;
  }

  lemma SharedPair(e: Setup, a: Component, b: Component, n: nat)
    requires Usable(e.cfg) && a.Plain? && b.Plain? && LeafSchedule(e, a, n).Returned? && LeafSchedule(e, b, n).Returned?
    ensures var r := Merge(e.cfg, n, LeafSchedule(e, a, n).value, LeafSchedule(e, b, n).value, true, 1);
      r.Returned? && Standing(e, a, b, n, 1, r.value)
  {
    LeafFinds(e, a, n);
    LeafFinds(e, b, n);
    hide LeafSchedule, Merge;
    if SplitFits(e, a, n, b, n) {
      LeavesShare(e, a, b, n);
      var r := Merge(e.cfg, n, Some(LeafResult(e, a, n)), Some(LeafResult(e, b, n)), true, 1).value.value;
      SharedPrice(e.cfg, n, LeafResult(e, a, n), LeafResult(e, b, n), 1, r);
    } else {
      MergeOfNone(e.cfg, n, LeafSchedule(e, a, n).value, LeafSchedule(e, b, n).value, true);
    }
  }

  lemma LeavesPiped(e: Setup, a: Component, m: nat, b: Component, n: nat, r: ScheduleResult)
    requires Usable(e.cfg) && SplitFits(e, a, m, b, n)
    requires Merge(e.cfg, m + n, Some(LeafResult(e, a, m)), Some(LeafResult(e, b, n)), false, 1) == Returned(Some(r))
    ensures r.Disaggregated? && r.totalCost == PipedCost(e, a, m, b, n)
  {
    hide Merge;
    PipelinedPrice(e.cfg, m + n, LeafResult(e, a, m), LeafResult(e, b, n), r);
  }

  lemma PipedPair(e: Setup, a: Component, m: nat, b: Component, n: nat)
    requires Usable(e.cfg) && m > 0 && n > 0 && a.Plain? && b.Plain? && a != b
    requires LeafSchedule(e, a, m).Returned? && LeafSchedule(e, b, n).Returned?
    ensures var r := Merge(e.cfg, m + n, LeafSchedule(e, a, m).value, LeafSchedule(e, b, n).value, false, 1);
      r.Returned? && (r.value.Some? <==> SplitFits(e, a, m, b, n) && !LastActor(e, b))
      && (r.value.Some? ==> r.value.value.Disaggregated? && r.value.value.totalCost == PipedCost(e, a, m, b, n))
  {
    hide LeafSchedule, Merge, LastActor, LeafResult, PipedCost;
    LeafFinds(e, a, m);
    LeafFinds(e, b, n);
    if SplitFits(e, a, m, b, n) {
      LeavesPipeline(e, a, m, b, n);
      var r := Merge(e.cfg, m + n, Some(LeafResult(e, a, m)), Some(LeafResult(e, b, n)), false, 1).value;
      if r.Some? {
        LeavesPiped(e, a, m, b, n, r.value);
      }
    } else {
      MergeOfNone(e.cfg, m + n, LeafSchedule(e, a, m).value, LeafSchedule(e, b, n).value, false);
    }
  }

  lemma {:induction false} PairSplits(e: Setup, bound: set<Component>, cut: Cut, a: Component, b: Component, s: nat,
      gpuNum: nat, best: Option<ScheduleResult>)
    requires Lists(e.lister) && CutBelow(e, bound, cut) && LeafCut(e, cut, a, b) && a.Plain? && b.Plain? && a != b
    requires Usable(e.cfg) && s >= 1 && Standing(e, a, b, gpuNum, s, best)
    ensures var r := OverSplits(e, bound, cut, s, gpuNum, best);
      r.Returned? && exists t: nat :: t >= gpuNum - 1 && Standing(e, a, b, gpuNum, t, r.value)
    decreases gpuNum - s
  {
    hide Schedule, Merge, CutBelow, LeafSchedule, Standing, SplitFits, LastActor, Usable;
    if s < gpuNum - 1 {
      PairSplit(e, cut, a, b, s, gpuNum);
      PipedPair(e, a, s, b, gpuNum - s);
      var r := Merge(e.cfg, gpuNum, LeafSchedule(e, a, s).value, LeafSchedule(e, b, gpuNum - s).value, false, 1);
      if r.value.None? {
        StandingSkips(e, a, b, gpuNum, s, best);
      } else {
        StandingNext(e, a, b, gpuNum, s, best, r.value.value);
      }
      PairSplits(e, bound, cut, a, b, s + 1, gpuNum, FindBest(best, r.value));
    }
  }

  lemma PairSplit(e: Setup, cut: Cut, a: Component, b: Component, n: nat, gpuNum: nat)
    requires Lists(e.lister) && LeafCut(e, cut, a, b) && a.Plain? && b.Plain? && Usable(e.cfg)
    requires n <= gpuNum
    ensures Schedule(e, cut.source.graph, n) == LeafSchedule(e, a, n) && LeafSchedule(e, a, n).Returned?
    ensures Schedule(e, cut.sink.graph, gpuNum - n) == LeafSchedule(e, b, gpuNum - n)
      && LeafSchedule(e, b, gpuNum - n).Returned?
  {
    hide Schedule;
  }

  lemma PairCutGives(e: Setup, bound: set<Component>, cut: Cut, a: Component, b: Component, gpuNum: nat)
    requires Lists(e.lister) && CutBelow(e, bound, cut) && LeafCut(e, cut, a, b) && a.Plain? && b.Plain? && a != b
    requires Usable(e.cfg)
    ensures PairResult(e, a, b, gpuNum, OverCut(e, bound, cut, gpuNum, None))
  {
    hide Schedule, Merge, CutBelow, LeafSchedule, Standing, LeafCut, PairResult, OverSplits, Usable;
    PairSplit(e, cut, a, b, gpuNum, gpuNum);
    PairSplit(e, cut, a, b, 0, gpuNum);
    SharedPair(e, a, b, gpuNum);
    var shared := Merge(e.cfg, gpuNum, LeafSchedule(e, a, gpuNum).value, LeafSchedule(e, b, gpuNum).value, true, 1);
    PairSplits(e, bound, cut, a, b, 1, gpuNum, shared.value);
    var r := OverSplits(e, bound, cut, 1, gpuNum, shared.value);
    var t: nat :| t >= gpuNum - 1 && Standing(e, a, b, gpuNum, t, r.value);
    StandingAfterAll(e, a, b, gpuNum, t, r.value);
  }

  lemma SoundMeans(e: Setup, g: Graph, n: nat, f: Found)
    requires Fine(e, g, n, f) && n > 0
    ensures Sized(f, n)
  {
  }

  /**
   * Two components, in every task: they share the GPUs exactly if no pipeline is as cheap, and are pipelined exactly if
   * one is; the cost is that of the cheapest way.
   */
  lemma PairGives(e: Setup, g: Graph, s: seq<Component>, gpuNum: nat)
    requires Lists(e.lister) && IsChain(g, s) && AllPlain(s) && |s| == 2 && gpuNum > 0 && Usable(e.cfg)
    ensures Sized(Schedule(e, g, gpuNum), gpuNum) && PairResult(e, s[0], s[1], gpuNum, Schedule(e, g, gpuNum))
  {
    hide Schedule, Cuts, MakeWorkflow, IsChain, PlainDag, CutBelow, OverCut, PairResult, Sized, Fine, AllPlain, Usable;
    ChainIsPlain(g, s);
    ChainSearch(e, g, s, gpuNum);
    TwoDistinct(g, s);
    SearchIsFine(e, g, gpuNum);
    SoundMeans(e, g, gpuNum, Schedule(e, g, gpuNum));
    PairCut(e, g, s);
    var cuts := Cuts(e.lister, MakeWorkflow(e.lister, g));
    PairCutGives(e, Nodes(g), cuts[0], s[0], s[1], gpuNum);
    var r := OverCut(e, Nodes(g), cuts[0], gpuNum, None);
    assert OverCuts(e, Nodes(g), cuts, 1, gpuNum, r.value) == Returned(r.value);
  }

  /** In a reasoning task the pair may share its GPUs further, or be pipelined further. */
  lemma PairModes(e: Setup, g: Graph, s: seq<Component>, gpuNum: nat)
    requires Lists(e.lister) && IsChain(g, s) && AllPlain(s) && |s| == 2 && gpuNum > 0 && e.cfg.taskType.Reasoning?
    ensures Usable(e.cfg) && Sized(Schedule(e, g, gpuNum), gpuNum)
    ensures CanShare(Schedule(e, g, gpuNum)) <==> PairShares(e, s[0], s[1], gpuNum)
    ensures CanPipe(Schedule(e, g, gpuNum)) <==> PairPipes(e, s[0], s[1], gpuNum)
  {
    PairGives(e, g, s, gpuNum);
    hide Schedule, IsChain, AllPlain, PairShares, PairPipes, SharedCost, CheapestPipe;
  }

  // ---------------------------------------------------------------- three components

  /** The first component with `n` GPUs in front of a pipeline of the other two. */
  ghost predicate FirstPipes(e: Setup, a: Component, b: Component, c: Component, n: nat, gpuNum: nat) {
    n < gpuNum - 1 && e.profile(a, n).Some? && PairPipes(e, b, c, gpuNum - n)
  }

  /** A pipeline of the first two components on `n` GPUs in front of the third. */
  ghost predicate LastPipes(e: Setup, a: Component, b: Component, c: Component, n: nat, gpuNum: nat) {
    n < gpuNum - 1 && PairPipes(e, a, b, n) && e.profile(c, gpuNum - n).Some?
  }

  /** The first component joins what is best for the other two. */
  ghost predicate FirstFits(e: Setup, a: Component, b: Component, c: Component, gpuNum: nat) {
    || (e.profile(a, gpuNum).Some? && PairShares(e, b, c, gpuNum))
    || exists n: nat :: 1 <= n && FirstPipes(e, a, b, c, n, gpuNum)
  }

  /** The third component joins what is best for the first two. */
  ghost predicate LastFits(e: Setup, a: Component, b: Component, c: Component, gpuNum: nat) {
    || (PairShares(e, a, b, gpuNum) && e.profile(c, gpuNum).Some?)
    || exists n: nat :: 1 <= n && LastPipes(e, a, b, c, n, gpuNum)
  }

  lemma OneGives(e: Setup, g: Graph, s: seq<Component>, n: nat)
    requires Lists(e.lister) && IsChain(g, s) && AllPlain(s) && |s| == 1 && n > 0 && e.cfg.taskType.Reasoning?
    ensures Sized(Schedule(e, g, n), n)
    ensures CanShare(Schedule(e, g, n)) <==> e.profile(s[0], n).Some?
    ensures CanPipe(Schedule(e, g, n)) <==> e.profile(s[0], n).Some?
  {
    OneOf(s);
    hide *;
    ChainSearch(e, g, s, n);
    LeafGives(e, s[0], n);
  }

  ghost predicate Triple(e: Setup, s: seq<Component>) {
    Lists(e.lister) && e.cfg.taskType.Reasoning? && AllPlain(s) && |s| == 3
  }

  lemma TripleMeans(e: Setup, s: seq<Component>)
    requires Triple(e, s)
    ensures Lists(e.lister) && e.cfg.taskType.Reasoning? && Usable(e.cfg) && AllPlain(s) && |s| == 3
  {
  }

  lemma TripleParts(e: Setup, s: seq<Component>)
    requires Triple(e, s)
    ensures |s| == 3 && AllPlain(s[..1]) && AllPlain(s[1..]) && AllPlain(s[..2]) && AllPlain(s[2..])
    ensures s[..1][0] == s[0] && s[1..][0] == s[1] && s[1..][1] == s[2]
    ensures s[..2][0] == s[0] && s[..2][1] == s[1] && s[2..][0] == s[2]
    ensures Lists(e.lister) && e.cfg.taskType.Reasoning? && Usable(e.cfg)
  {
  }

  lemma HeadGives(e: Setup, g: Graph, s: seq<Component>, n: nat)
    requires Triple(e, s) && IsChain(g, s[..1]) && n > 0
    ensures Lists(e.lister) && Sized(Schedule(e, g, n), n)
    ensures CanShare(Schedule(e, g, n)) <==> e.profile(s[0], n).Some?
    ensures CanPipe(Schedule(e, g, n)) <==> e.profile(s[0], n).Some?
  {
    hide *;
    TripleParts(e, s);
    OneGives(e, g, s[..1], n);
  }

  lemma RestGives(e: Setup, g: Graph, s: seq<Component>, n: nat)
    requires Triple(e, s) && IsChain(g, s[1..]) && n > 0
    ensures Lists(e.lister) && Sized(Schedule(e, g, n), n)
    ensures CanShare(Schedule(e, g, n)) <==> PairShares(e, s[1], s[2], n)
    ensures CanPipe(Schedule(e, g, n)) <==> PairPipes(e, s[1], s[2], n)
  {
    hide *;
    TripleParts(e, s);
    PairModes(e, g, s[1..], n);
  }

  lemma InitGives(e: Setup, g: Graph, s: seq<Component>, n: nat)
    requires Triple(e, s) && IsChain(g, s[..2]) && n > 0
    ensures Lists(e.lister) && Sized(Schedule(e, g, n), n)
    ensures CanShare(Schedule(e, g, n)) <==> PairShares(e, s[0], s[1], n)
    ensures CanPipe(Schedule(e, g, n)) <==> PairPipes(e, s[0], s[1], n)
  {
    hide *;
    TripleParts(e, s);
    PairModes(e, g, s[..2], n);
  }

  lemma LastGives(e: Setup, g: Graph, s: seq<Component>, n: nat)
    requires Triple(e, s) && IsChain(g, s[2..]) && n > 0
    ensures Lists(e.lister) && Sized(Schedule(e, g, n), n)
    ensures CanShare(Schedule(e, g, n)) <==> e.profile(s[2], n).Some?
    ensures CanPipe(Schedule(e, g, n)) <==> e.profile(s[2], n).Some?
  {
    hide *;
    TripleParts(e, s);
    OneGives(e, g, s[2..], n);
  }

  lemma NeverPipedAt(e: Setup, cut: Cut, n: nat, gpuNum: nat)
    requires Lists(e.lister) && n >= gpuNum - 1
    ensures !PipedAt(e, cut, n, gpuNum)
  {
    hide PipedAt;
    if PipedAt(e, cut, n, gpuNum) {
      NotPiped(e, cut, n, gpuNum);
    }
  }

  lemma FirstPipesMeans(e: Setup, a: Component, b: Component, c: Component, n: nat, gpuNum: nat)
    ensures FirstPipes(e, a, b, c, n, gpuNum)
      <==> n < gpuNum - 1 && e.profile(a, n).Some? && PairPipes(e, b, c, gpuNum - n)
  {
    hide PairPipes;
  }

  lemma LastPipesMeans(e: Setup, a: Component, b: Component, c: Component, n: nat, gpuNum: nat)
    ensures LastPipes(e, a, b, c, n, gpuNum)
      <==> n < gpuNum - 1 && PairPipes(e, a, b, n) && e.profile(c, gpuNum - n).Some?
  {
    hide PairPipes;
  }

  lemma FirstPiped(e: Setup, cut: Cut, s: seq<Component>, n: nat, gpuNum: nat)
    requires Triple(e, s) && gpuNum > 0 && n >= 1
    requires IsChain(cut.source.graph, s[..1]) && IsChain(cut.sink.graph, s[1..])
    ensures Lists(e.lister) && (PipedAt(e, cut, n, gpuNum) <==> FirstPipes(e, s[0], s[1], s[2], n, gpuNum))
  {
    hide *;
    TripleMeans(e, s);
    FirstPipesMeans(e, s[0], s[1], s[2], n, gpuNum);
    if n < gpuNum - 1 {
      HeadGives(e, cut.source.graph, s, n);
      RestGives(e, cut.sink.graph, s, gpuNum - n);
      PipedIff(e, cut, n, gpuNum);
    } else {
      NeverPipedAt(e, cut, n, gpuNum);
    }
  }

  lemma LastPiped(e: Setup, cut: Cut, s: seq<Component>, n: nat, gpuNum: nat)
    requires Triple(e, s) && gpuNum > 0 && n >= 1
    requires IsChain(cut.source.graph, s[..2]) && IsChain(cut.sink.graph, s[2..])
    ensures Lists(e.lister) && (PipedAt(e, cut, n, gpuNum) <==> LastPipes(e, s[0], s[1], s[2], n, gpuNum))
  {
    hide *;
    TripleMeans(e, s);
    LastPipesMeans(e, s[0], s[1], s[2], n, gpuNum);
    if n < gpuNum - 1 {
      InitGives(e, cut.source.graph, s, n);
      LastGives(e, cut.sink.graph, s, gpuNum - n);
      PipedIff(e, cut, n, gpuNum);
    } else {
      NeverPipedAt(e, cut, n, gpuNum);
    }
  }

  /** The first cut: the first component joins the other two. */
  lemma FirstCut(e: Setup, cut: Cut, s: seq<Component>, gpuNum: nat)
    requires Triple(e, s) && gpuNum > 0
    requires IsChain(cut.source.graph, s[..1]) && IsChain(cut.sink.graph, s[1..])
    ensures Lists(e.lister) && (Tried(e, cut, gpuNum) <==> FirstFits(e, s[0], s[1], s[2], gpuNum))
  {
    hide Triple, Schedule, IsChain, Sized, CanShare, CanPipe, Tried, SharedAt, PipedAt, PairShares, PairPipes,
      FirstPipes;
    TripleMeans(e, s);
    HeadGives(e, cut.source.graph, s, gpuNum);
    RestGives(e, cut.sink.graph, s, gpuNum);
    SharedIff(e, cut, gpuNum);
    TriedEitherWay(e, cut, gpuNum);
    forall n: nat | 1 <= n
      ensures PipedAt(e, cut, n, gpuNum) <==> FirstPipes(e, s[0], s[1], s[2], n, gpuNum)
    {
      FirstPiped(e, cut, s, n, gpuNum);
    }
  }

  /** The second cut: the last component joins the first two. */
  lemma SecondCut(e: Setup, cut: Cut, s: seq<Component>, gpuNum: nat)
    requires Triple(e, s) && gpuNum > 0
    requires IsChain(cut.source.graph, s[..2]) && IsChain(cut.sink.graph, s[2..])
    ensures Lists(e.lister) && (Tried(e, cut, gpuNum) <==> LastFits(e, s[0], s[1], s[2], gpuNum))
  {
    hide Triple, Schedule, IsChain, Sized, CanShare, CanPipe, Tried, SharedAt, PipedAt, PairShares, PairPipes,
      LastPipes;
    TripleMeans(e, s);
    InitGives(e, cut.source.graph, s, gpuNum);
    LastGives(e, cut.sink.graph, s, gpuNum);
    SharedIff(e, cut, gpuNum);
    TriedEitherWay(e, cut, gpuNum);
    forall n: nat | 1 <= n
      ensures PipedAt(e, cut, n, gpuNum) <==> LastPipes(e, s[0], s[1], s[2], n, gpuNum)
    {
      LastPiped(e, cut, s, n, gpuNum);
    }
  }

  /** Both cuts are tried with success or not; there is no other. */
  lemma TripleCuts(e: Setup, g: Graph, s: seq<Component>, gpuNum: nat)
    requires Triple(e, s) && Lists(e.lister) && IsChain(g, s) && gpuNum > 0 && Schedule(e, g, gpuNum).Returned?
    ensures var cuts := Cuts(e.lister, MakeWorkflow(e.lister, g));
      |cuts| == 2
      && IsChain(cuts[0].source.graph, s[..1]) && IsChain(cuts[0].sink.graph, s[1..])
      && IsChain(cuts[1].source.graph, s[..2]) && IsChain(cuts[1].sink.graph, s[2..])
      && (Schedule(e, g, gpuNum).value.Some? <==> Tried(e, cuts[0], gpuNum) || Tried(e, cuts[1], gpuNum))
  {
    hide *;
    TripleMeans(e, s);
    var cuts := Cuts(e.lister, MakeWorkflow(e.lister, g));
    FoundIfTried(e, g, s, gpuNum);
    TwoCuts(e.lister, g, s);
    OneOfTwo(e, cuts, gpuNum);
  }

  lemma TwoCuts(lister: Lister, g: Graph, s: seq<Component>)
    requires Lists(lister) && IsChain(g, s) && |s| == 3
    ensures var cuts := Cuts(lister, MakeWorkflow(lister, g));
      |cuts| == 2
      && IsChain(cuts[0].source.graph, s[..1]) && IsChain(cuts[0].sink.graph, s[1..])
      && IsChain(cuts[1].source.graph, s[..2]) && IsChain(cuts[1].sink.graph, s[2..])
  {
    hide *;
    ChainCuts(lister, g, s);
  }

  lemma OneOfTwo(e: Setup, cuts: seq<Cut>, gpuNum: nat)
    requires Lists(e.lister) && |cuts| == 2
    ensures (exists k :: 0 <= k < |cuts| && Tried(e, cuts[k], gpuNum))
      <==> Tried(e, cuts[0], gpuNum) || Tried(e, cuts[1], gpuNum)
  {
    hide *;
  }

  /**
   * Three components in a row on any number of GPUs: the search never raises, and finds a schedule if and only if the
   * first component can join what is best for the other two, or the third what is best for the first two.
   */
  lemma TripleFoundIff(e: Setup, g: Graph, s: seq<Component>, gpuNum: nat)
    requires Triple(e, s) && Lists(e.lister) && IsChain(g, s) && gpuNum > 0
    ensures var f := Schedule(e, g, gpuNum);
      f.Returned?
        && (f.value.Some? <==> FirstFits(e, s[0], s[1], s[2], gpuNum) || LastFits(e, s[0], s[1], s[2], gpuNum))
  {
    hide *;
    TripleMeans(e, s);
    ChainIsPlain(g, s);
    SearchIsFine(e, g, gpuNum);
    FineReturns(e, g, gpuNum);
    TripleCuts(e, g, s, gpuNum);
    var cuts := Cuts(e.lister, MakeWorkflow(e.lister, g));
    FirstCut(e, cuts[0], s, gpuNum);
    SecondCut(e, cuts[1], s, gpuNum);
  }

  // ---------------------------------------------------------------- equal costs

  /** Every component costs the same on every number of GPUs. */
  ghost predicate SameCost(e: Setup, s: seq<Component>, gpuNum: nat, cost: real) {
    forall i, n :: 0 <= i < |s| && 1 <= n <= gpuNum ==> e.profile(s[i], n) == Some(cost)
  }

  lemma PairAtSameCost(e: Setup, a: Component, b: Component, gpuNum: nat, cost: real)
    requires e.cfg.taskType.Reasoning? && e.cfg.rolloutBatchSize > 0 && cost >= 0.0 && gpuNum > 0
    requires forall n :: 1 <= n <= gpuNum ==> e.profile(a, n) == Some(cost) && e.profile(b, n) == Some(cost)
    ensures PairShares(e, a, b, gpuNum) <==> gpuNum < 3
    ensures PairPipes(e, a, b, gpuNum) <==> gpuNum >= 3
  {
    hide SharedCost, PipedCost;
    if gpuNum >= 3 {
      assert PipeAt(e, a, b, 1, gpuNum);
      PipeNotDearer(e, a, b, gpuNum, cost);
      assert NotBeaten(e, a, b, 1, gpuNum);
    } else {
      assert forall n: nat :: !PipeAt(e, a, b, n, gpuNum);
    }
  }

  lemma PipeNotDearer(e: Setup, a: Component, b: Component, gpuNum: nat, cost: real)
    requires e.cfg.taskType.Reasoning? && e.cfg.rolloutBatchSize > 0 && cost >= 0.0 && gpuNum >= 3
    requires e.profile(a, 1) == e.profile(b, gpuNum - 1) == Some(cost)
    requires e.profile(a, gpuNum) == e.profile(b, gpuNum) == Some(cost)
    ensures PipedCost(e, a, 1, b, gpuNum - 1) <= SharedCost(e, a, b, gpuNum)
  {
    var more := e.cfg.rolloutBatchSize as real - 1.0;
    Distributes(cost, more, 1.0);
    assert cost * more >= 0.0;
  }

  lemma SameCostAt(e: Setup, s: seq<Component>, gpuNum: nat, cost: real, i: nat, n: nat)
    requires SameCost(e, s, gpuNum, cost) && i < |s| && 1 <= n <= gpuNum
    ensures e.profile(s[i], n) == Some(cost)
  {
  }

  lemma SharesAtSameCost(e: Setup, s: seq<Component>, gpuNum: nat, cost: real, i: nat, n: nat)
    requires SameCost(e, s, gpuNum, cost) && i + 1 < |s| && 1 <= n <= gpuNum
    requires e.cfg.taskType.Reasoning? && e.cfg.rolloutBatchSize > 0 && cost >= 0.0
    ensures PairShares(e, s[i], s[i + 1], n) <==> n < 3
    ensures PairPipes(e, s[i], s[i + 1], n) <==> n >= 3
  {
    hide PairShares, PairPipes;
    forall m: nat | 1 <= m <= n
      ensures e.profile(s[i], m) == Some(cost) && e.profile(s[i + 1], m) == Some(cost)
    {
      SameCostAt(e, s, gpuNum, cost, i, m);
      SameCostAt(e, s, gpuNum, cost, i + 1, m);
    }
    PairAtSameCost(e, s[i], s[i + 1], n, cost);
  }

  lemma TripleAtSameCost(e: Setup, s: seq<Component>, gpuNum: nat, cost: real)
    requires SameCost(e, s, gpuNum, cost) && |s| == 3 && gpuNum > 0
    requires e.cfg.taskType.Reasoning? && e.cfg.rolloutBatchSize > 0 && cost >= 0.0
    ensures FirstFits(e, s[0], s[1], s[2], gpuNum) <==> gpuNum != 3
    ensures LastFits(e, s[0], s[1], s[2], gpuNum) ==> gpuNum != 3
  {
    hide PairShares, PairPipes, SameCost;
    SameCostAt(e, s, gpuNum, cost, 0, gpuNum);
    SharesAtSameCost(e, s, gpuNum, cost, 0, gpuNum);
    SharesAtSameCost(e, s, gpuNum, cost, 1, gpuNum);
    if gpuNum == 3 {
      SharesAtSameCost(e, s, gpuNum, cost, 0, 1);
      SharesAtSameCost(e, s, gpuNum, cost, 1, 2);
    }
    if gpuNum > 3 {
      SameCostAt(e, s, gpuNum, cost, 0, 1);
      SharesAtSameCost(e, s, gpuNum, cost, 1, gpuNum - 1);
      assert FirstPipes(e, s[0], s[1], s[2], 1, gpuNum);
    }
  }

  /**
   * With equal costs a schedule is found on every number of GPUs but three, and nothing on three, although all three
   * components can share them.
   */
  lemma EqualCostsFindNothing(e: Setup, g: Graph, s: seq<Component>, gpuNum: nat, cost: real)
    requires Triple(e, s) && Lists(e.lister) && IsChain(g, s) && gpuNum > 0
    requires e.cfg.rolloutBatchSize > 0 && cost >= 0.0 && SameCost(e, s, gpuNum, cost)
    ensures Schedule(e, g, gpuNum) == Returned(None) <==> gpuNum == 3
    ensures Usable(e.cfg) && forall i :: 0 <= i < 3 ==> e.profile(s[i], gpuNum).Some?
    ensures
      var pair := Merge(e.cfg, gpuNum, Some(LeafResult(e, s[0], gpuNum)), Some(LeafResult(e, s[1], gpuNum)), true, 1);
      && pair.Returned? && pair.value.Some?
      && var all := Merge(e.cfg, gpuNum, pair.value, Some(LeafResult(e, s[2], gpuNum)), true, 1);
         all.Returned? && all.value.Some?
  {
    hide Schedule, IsChain, Merge, FirstFits, LastFits, LeafResult, Lists, AllPlain;
    TripleMeans(e, s);
    TripleFoundIff(e, g, s, gpuNum);
    TripleAtSameCost(e, s, gpuNum, cost);
    AllCanShare(e, s[0], s[1], s[2], gpuNum);
  }

  lemma AllCanShare(e: Setup, a: Component, b: Component, c: Component, n: nat)
    requires Usable(e.cfg) && e.profile(a, n).Some? && e.profile(b, n).Some? && e.profile(c, n).Some?
    ensures var pair := Merge(e.cfg, n, Some(LeafResult(e, a, n)), Some(LeafResult(e, b, n)), true, 1);
      && pair.Returned? && pair.value.Some?
      && var all := Merge(e.cfg, n, pair.value, Some(LeafResult(e, c, n)), true, 1); all.Returned? && all.value.Some?
  {
    SharedMerge(e.cfg, n, LeafResult(e, a, n), LeafResult(e, b, n));
    var pair := Merge(e.cfg, n, Some(LeafResult(e, a, n)), Some(LeafResult(e, b, n)), true, 1).value.value;
    SharedMerge(e.cfg, n, pair, LeafResult(e, c, n));
  }
}
