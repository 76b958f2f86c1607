/** Exactly when the search over a chain raises, and what it finds on few GPUs. */
module LongChains {
  import opened Graphs
  import opened Wrappers
  import opened Workflows
  import opened Placement
  import opened Scheduling
  import opened ScheduleProps
  import opened Chains
  import opened FewGpus

  ghost predicate AllPlain(s: seq<Component>) {
    forall i :: 0 <= i < |s| ==> s[i].Plain?
  }

  /** Every component can run on `gpuNum` GPUs. */
  ghost predicate Known(e: Setup, s: seq<Component>, gpuNum: nat) {
    forall i :: 0 <= i < |s| ==> e.profile(s[i], gpuNum).Some?
  }

  lemma ChainIsPlain(g: Graph, s: seq<Component>)
    requires IsChain(g, s) && AllPlain(s)
    ensures PlainDag(g) && |Nodes(g)| == |s|
  {
    ChainNodes(g, s);
    ChainForward(g, s);
    MembersSize(s);
    assert s[0] in Members(s);
  }

  // ---------------------------------------------------------------- one or two GPUs: nested to the left

  /** What a component alone costs in all. */
  function LeafTotal(e: Setup, v: Component, gpuNum: nat): real
    requires e.profile(v, gpuNum).Some?
  {
    if e.cfg.taskType.Reasoning? then e.profile(v, gpuNum).value * e.cfg.rolloutBatchSize as real
    else e.profile(v, gpuNum).value
  }

  function TotalOf(e: Setup, s: seq<Component>, gpuNum: nat): real
    requires forall i :: 0 <= i < |s| ==> e.profile(s[i], gpuNum).Some?
  {
    if s == [] then 0.0 else LeafTotal(e, s[0], gpuNum) + TotalOf(e, s[1..], gpuNum)
  }

  lemma {:induction false} TotalOfSplit(e: Setup, s: seq<Component>, k: nat, gpuNum: nat)
    requires k <= |s| && forall i :: 0 <= i < |s| ==> e.profile(s[i], gpuNum).Some?
    ensures TotalOf(e, s, gpuNum) == TotalOf(e, s[..k], gpuNum) + TotalOf(e, s[k..], gpuNum)
  {
    if k > 0 {
      assert s[..k][1..] == s[1..][..k - 1] && s[1..][k - 1..] == s[k..];
      TotalOfSplit(e, s[1..], k - 1, gpuNum);
    } else {
      assert s[0..] == s;
    }
  }

  /** Collocated all the way, the last component outermost. */
  ghost predicate LeftNested(e: Setup, s: seq<Component>, gpuNum: nat, r: ScheduleResult)
    requires Known(e, s, gpuNum)
  {
    && Shared(r, gpuNum) && r.totalCost == TotalOf(e, s, gpuNum)
    && (|s| > 1 ==>
      && r.Collocated? && r.sink.Single? && KnownInit(e, s, gpuNum)
      && LeftNested(e, s[..|s| - 1], gpuNum, r.source))
    && (|s| == 1 ==> r.Single?)
  }

  ghost predicate KnownInit(e: Setup, s: seq<Component>, gpuNum: nat)
    requires |s| > 0
  {
    Known(e, s[..|s| - 1], gpuNum)
  }

  ghost predicate NestedFound(e: Setup, s: seq<Component>, gpuNum: nat, f: Found)
    requires Known(e, s, gpuNum)
  {
    f.Returned? && f.value.Some? && LeftNested(e, s, gpuNum, f.value.value)
  }

  lemma KnownPart(e: Setup, s: seq<Component>, k: nat, gpuNum: nat)
    requires Known(e, s, gpuNum) && AllPlain(s) && k <= |s|
    ensures Known(e, s[..k], gpuNum) && Known(e, s[k..], gpuNum) && AllPlain(s[..k]) && AllPlain(s[k..])
  {
  }

  /** With at most two GPUs no split is tried. */
  lemma OnlyShared(e: Setup, bound: set<Component>, cut: Cut, gpuNum: nat, best: Option<ScheduleResult>,
      source: ScheduleResult, sink: ScheduleResult, shared: ScheduleResult)
    requires Lists(e.lister) && CutBelow(e, bound, cut) && gpuNum <= 2
    requires Schedule(e, cut.source.graph, gpuNum) == Returned(Some(source))
      && Schedule(e, cut.sink.graph, gpuNum) == Returned(Some(sink))
    requires Merge(e.cfg, gpuNum, Some(source), Some(sink), true, 1) == Returned(Some(shared))
    ensures OverCut(e, bound, cut, gpuNum, best) == Returned(FindBest(best, Some(shared)))
  {
    hide Schedule, Merge, FindBest, CutBelow;
  }

  lemma TieGoesToSecond(best: Option<ScheduleResult>, second: ScheduleResult)
    requires best.Some? ==> best.value.totalCost == second.totalCost
    ensures FindBest(best, Some(second)) == Some(second)
  {
  }

  /** What is nested has the total of its chain, and a chain of one component is no merge. */
  lemma NestedTotal(e: Setup, s: seq<Component>, gpuNum: nat, f: Found) returns (r: ScheduleResult)
    requires Known(e, s, gpuNum) && NestedFound(e, s, gpuNum, f)
    ensures f == Returned(Some(r)) && Shared(r, gpuNum) && r.totalCost == TotalOf(e, s, gpuNum)
    ensures LeftNested(e, s, gpuNum, r) && (|s| == 1 ==> r.Single?)
  {
    hide Shared, TotalOf;
    r := f.value.value;
  }

  /** All cuts cost the same in total, so the last one wins: its source is the rest of the chain. */
  lemma NestedCut(e: Setup, bound: set<Component>, cut: Cut, s: seq<Component>, k: nat, gpuNum: nat,
      best: Option<ScheduleResult>)
    requires Lists(e.lister) && CutBelow(e, bound, cut) && gpuNum <= 2 && Known(e, s, gpuNum) && 0 < k < |s|
    requires NestedSides(e, cut, s, k, gpuNum)
    requires best.Some? ==> best.value.totalCost == TotalOf(e, s, gpuNum)
    ensures var r := OverCut(e, bound, cut, gpuNum, best);
      && r.Returned? && r.value.Some? && r.value.value.totalCost == TotalOf(e, s, gpuNum)
      && (k == |s| - 1 ==> LeftNested(e, s, gpuNum, r.value.value))
  {
    SidesMean(e, cut, s, k, gpuNum);
    TotalOfSplit(e, s, k, gpuNum);
    hide Schedule, Merge, Shared, TotalOf, NestedSides, LeftNested, NestedFound, OverCut, FindBest, CutBelow;
    var source := NestedTotal(e, s[..k], gpuNum, Schedule(e, cut.source.graph, gpuNum));
    var sink := NestedTotal(e, s[k..], gpuNum, Schedule(e, cut.sink.graph, gpuNum));
    SharedMerge(e.cfg, gpuNum, source, sink);
    var shared := Merge(e.cfg, gpuNum, Some(source), Some(sink), true, 1).value.value;
    OnlyShared(e, bound, cut, gpuNum, best, source, sink, shared);
    TieGoesToSecond(best, shared);
    if k == |s| - 1 {
      NestedOneMore(e, s, gpuNum, shared);
    }
  }

  lemma NestedOneMore(e: Setup, s: seq<Component>, gpuNum: nat, r: ScheduleResult)
    requires Known(e, s, gpuNum) && |s| > 1 && Known(e, s[..|s| - 1], gpuNum)
    requires Shared(r, gpuNum) && r.totalCost == TotalOf(e, s, gpuNum) && r.Collocated? && r.sink.Single?
    requires LeftNested(e, s[..|s| - 1], gpuNum, r.source)
    ensures LeftNested(e, s, gpuNum, r)
  {
    hide Shared, TotalOf;
  }

  lemma SidesMean(e: Setup, cut: Cut, s: seq<Component>, k: nat, gpuNum: nat)
    requires Lists(e.lister) && NestedSides(e, cut, s, k, gpuNum)
    ensures 0 < k < |s| && Known(e, s[..k], gpuNum) && Known(e, s[k..], gpuNum)
    ensures NestedFound(e, s[..k], gpuNum, Schedule(e, cut.source.graph, gpuNum))
    ensures NestedFound(e, s[k..], gpuNum, Schedule(e, cut.sink.graph, gpuNum))
  {
    hide NestedFound, Known, Schedule;
  }

  lemma {:induction false} NestedCuts(e: Setup, bound: set<Component>, cuts: seq<Cut>, i: nat, s: seq<Component>,
      gpuNum: nat, best: Option<ScheduleResult>)
    requires Lists(e.lister) && CutsBelow(e, bound, cuts) && gpuNum <= 2 && Known(e, s, gpuNum) && AllPlain(s)
    requires |cuts| == |s| - 1 && i < |cuts|
    requires forall k :: 0 <= k < |cuts| ==> NestedSides(e, cuts[k], s, k + 1, gpuNum)
    requires best.Some? ==> best.value.totalCost == TotalOf(e, s, gpuNum)
    ensures NestedFound(e, s, gpuNum, OverCuts(e, bound, cuts, i, gpuNum, best))
    decreases |cuts| - i
  {
    hide CutBelow, OverCut, Shared, TotalOf, Known, Schedule, LeftNested, NestedSides;
    assert CutBelow(e, bound, cuts[i]) && NestedSides(e, cuts[i], s, i + 1, gpuNum);
    NestedCut(e, bound, cuts[i], s, i + 1, gpuNum, best);
    if i + 1 < |cuts| {
      NestedCuts(e, bound, cuts, i + 1, s, gpuNum, OverCut(e, bound, cuts[i], gpuNum, best).value);
    }
  }

  ghost predicate NestedSides(e: Setup, cut: Cut, s: seq<Component>, k: nat, gpuNum: nat)
    requires Lists(e.lister)
  {
    && 0 < k < |s| && Known(e, s[..k], gpuNum) && Known(e, s[k..], gpuNum)
    && NestedFound(e, s[..k], gpuNum, Schedule(e, cut.source.graph, gpuNum))
    && NestedFound(e, s[k..], gpuNum, Schedule(e, cut.sink.graph, gpuNum))
  }

  lemma NestedLeaf(e: Setup, v: Component, gpuNum: nat)
    requires v.Plain? && Known(e, [v], gpuNum) && Usable(e.cfg)
    ensures NestedFound(e, [v], gpuNum, LeafSchedule(e, v, gpuNum))
  {
    assert e.profile([v][0], gpuNum).Some?;
    assert [v][1..] == [];
  }

  lemma ChainSides(e: Setup, cut: Cut, s: seq<Component>, k: nat, gpuNum: nat)
    requires Lists(e.lister) && AllPlain(s) && Known(e, s, gpuNum) && Usable(e.cfg) && gpuNum <= 2 && 0 < k < |s|
    requires IsChain(cut.source.graph, s[..k]) && IsChain(cut.sink.graph, s[k..])
    ensures NestedSides(e, cut, s, k, gpuNum)
    decreases |s|, 0
  {
    KnownPart(e, s, k, gpuNum);
    hide IsChain, Known, AllPlain, NestedFound, Schedule;
    ChainIsNested(e, cut.source.graph, s[..k], gpuNum);
    ChainIsNested(e, cut.sink.graph, s[k..], gpuNum);
  }

  lemma OneOf(s: seq<Component>)
    requires |s| == 1 && AllPlain(s)
    ensures s == [s[0]] && s[0].Plain?
  {
  }

  /** With at most two GPUs a chain is collocated, the last component outermost. */
  lemma {:induction false} ChainIsNested(e: Setup, g: Graph, s: seq<Component>, gpuNum: nat)
    requires Lists(e.lister) && IsChain(g, s) && AllPlain(s) && Known(e, s, gpuNum) && Usable(e.cfg) && gpuNum <= 2
    ensures NestedFound(e, s, gpuNum, Schedule(e, g, gpuNum))
    decreases |s|, 1
  {
    hide *;
    ChainDistinct(g, s);
    ChainSearch(e, g, s, gpuNum);
    if |s| == 1 {
      OneOf(s);
      NestedLeaf(e, s[0], gpuNum);
    } else {
      var cuts := Cuts(e.lister, MakeWorkflow(e.lister, g));
      forall k | 0 <= k < |cuts|
        ensures NestedSides(e, cuts[k], s, k + 1, gpuNum)
      {
        ChainSides(e, cuts[k], s, k + 1, gpuNum);
      }
      NestedCuts(e, Nodes(g), cuts, 0, s, gpuNum, None);
    }
  }

  // ---------------------------------------------------------------- four components and three GPUs

  /** If the split that leaves `gpuNum - n` GPUs to the sink raises, so does the loop over the splits. */
  lemma {:induction false} SplitRaises(e: Setup, bound: set<Component>, cut: Cut, s: nat, gpuNum: nat,
      best: Option<ScheduleResult>, n: nat)
    requires Lists(e.lister) && CutBelow(e, bound, cut) && s <= n < gpuNum - 1
    requires var source, sink := Schedule(e, cut.source.graph, n), Schedule(e, cut.sink.graph, gpuNum - n);
      source.Returned? && sink.Returned? && Merge(e.cfg, gpuNum, source.value, sink.value, false, 1).Raised?
    ensures OverSplits(e, bound, cut, s, gpuNum, best).Raised?
    decreases n - s
  {
    hide Schedule, Merge, FindBest, CutBelow;
    if s < n {
      var source, sink := Schedule(e, cut.source.graph, s), Schedule(e, cut.sink.graph, gpuNum - s);
      if source.Returned? && sink.Returned? {
        var pipelined := Merge(e.cfg, gpuNum, source.value, sink.value, false, 1);
        if pipelined.Returned? {
          SplitRaises(e, bound, cut, s + 1, gpuNum, FindBest(best, pipelined.value), n);
        }
      }
    }
  }

  /** A component cannot be pipelined with three collocated ones. */
  lemma NestedSinkRaises(e: Setup, source: ScheduleResult, sink: ScheduleResult, gpuNum: nat)
    requires sink.Collocated? && sink.source.Collocated?
    ensures Merge(e.cfg, gpuNum, Some(source), Some(sink), false, 1).Raised?
  {
  }

  /** Three components merge into a collocated result, and a pipeline in front of it raises. */
  lemma FourthComponentRaises(e: Setup, a: ScheduleResult, b: ScheduleResult, c: ScheduleResult, d: ScheduleResult)
    requires Shared(b, 1) && Shared(c, 1) && Shared(d, 1)
    ensures var pair := Merge(e.cfg, 1, Some(b), Some(c), true, 1);
      && pair.Returned? && pair.value.Some?
      && var triple := Merge(e.cfg, 1, pair.value, Some(d), true, 1);
         triple.Returned? && triple.value.Some? && Merge(e.cfg, 2, Some(a), triple.value, false, 1).Raised?
  {
    SharedMerge(e.cfg, 1, b, c);
    var pair := Merge(e.cfg, 1, Some(b), Some(c), true, 1).value.value;
    SharedMerge(e.cfg, 1, pair, d);
    NestedSinkRaises(e, a, Merge(e.cfg, 1, Some(pair), Some(d), true, 1).value.value, 2);
  }

  lemma LeafFound(e: Setup, v: Component, n: nat) returns (r: ScheduleResult)
    requires v.Plain? && e.profile(v, n).Some? && Usable(e.cfg)
    ensures LeafSchedule(e, v, n) == Returned(Some(r))
  {
    r := LeafSchedule(e, v, n).value.value;
  }

  lemma NestedMeans(e: Setup, s: seq<Component>, gpuNum: nat, f: Found) returns (r: ScheduleResult)
    requires Known(e, s, gpuNum) && NestedFound(e, s, gpuNum, f) && |s| > 2
    ensures f == Returned(Some(r)) && r.Collocated? && r.source.Collocated?
  {
    hide Shared, TotalOf, Known;
    r := f.value.value;
    assert LeftNested(e, s[..|s| - 1], gpuNum, r.source);
  }

  lemma FirstOf(s: seq<Component>)
    requires |s| > 0 && AllPlain(s)
    ensures s[..1][0] == s[0] && s[0].Plain? && AllPlain(s[1..])
  {
  }

  /** What the search finds for the first component and for the others. */
  lemma FirstAndRest(e: Setup, cut: Cut, s: seq<Component>, n: nat)
      returns (source: ScheduleResult, sink: ScheduleResult)
    requires Lists(e.lister) && |s| >= 4 && AllPlain(s) && Usable(e.cfg)
    requires IsChain(cut.source.graph, s[..1]) && IsChain(cut.sink.graph, s[1..])
    requires e.profile(s[0], n).Some? && Known(e, s[1..], 2)
    ensures Schedule(e, cut.source.graph, n) == Returned(Some(source))
      && Schedule(e, cut.sink.graph, 2) == Returned(Some(sink))
    ensures sink.Collocated? && sink.source.Collocated?
  {
    hide *;
    FirstOf(s);
    ChainSearch(e, cut.source.graph, s[..1], n);
    source := LeafFound(e, s[0], n);
    ChainIsNested(e, cut.sink.graph, s[1..], 2);
    sink := NestedMeans(e, s[1..], 2, Schedule(e, cut.sink.graph, 2));
  }

  /** The split of the first cut that leaves two GPUs to all components but the first. */
  lemma LastSplitRaises(e: Setup, cut: Cut, s: seq<Component>, gpuNum: nat)
    requires Lists(e.lister) && |s| >= 4 && gpuNum >= 3 && AllPlain(s) && Usable(e.cfg)
    requires IsChain(cut.source.graph, s[..1]) && IsChain(cut.sink.graph, s[1..])
    requires e.profile(s[0], gpuNum - 2).Some? && Known(e, s[1..], 2)
    ensures var source, sink := Schedule(e, cut.source.graph, gpuNum - 2), Schedule(e, cut.sink.graph, 2);
      source.Returned? && sink.Returned? && Merge(e.cfg, gpuNum, source.value, sink.value, false, 1).Raised?
  {
    hide *;
    var source, sink := FirstAndRest(e, cut, s, gpuNum - 2);
    NestedSinkRaises(e, source, sink, gpuNum);
  }

  lemma CutRaises(e: Setup, bound: set<Component>, cut: Cut, gpuNum: nat, best: Option<ScheduleResult>)
    requires Lists(e.lister) && CutBelow(e, bound, cut) && gpuNum >= 3
    requires var source, sink := Schedule(e, cut.source.graph, gpuNum - 2), Schedule(e, cut.sink.graph, 2);
      source.Returned? && sink.Returned? && Merge(e.cfg, gpuNum, source.value, sink.value, false, 1).Raised?
    ensures OverCut(e, bound, cut, gpuNum, best).Raised?
  {
    hide Schedule, Merge, FindBest, OverSplits, CutBelow;
    forall after: Option<ScheduleResult>
      ensures OverSplits(e, bound, cut, 1, gpuNum, after).Raised?
    {
      SplitRaises(e, bound, cut, 1, gpuNum, after, gpuNum - 2);
    }
    CutOfRaising(e, bound, cut, gpuNum, best);
  }

  lemma CutOfRaising(e: Setup, bound: set<Component>, cut: Cut, gpuNum: nat, best: Option<ScheduleResult>)
    requires Lists(e.lister) && CutBelow(e, bound, cut)
    requires forall after :: OverSplits(e, bound, cut, 1, gpuNum, after).Raised?
    ensures OverCut(e, bound, cut, gpuNum, best).Raised?
  {
    hide Schedule, Merge, FindBest, OverSplits, CutBelow;
  }

  /**
   * Four components in a row on three GPUs or more: the search raises as soon as the first can run on all but two
   * GPUs and the others on two.
   */
  lemma LongChainRaises(e: Setup, g: Graph, s: seq<Component>, gpuNum: nat)
    requires Lists(e.lister) && IsChain(g, s) && AllPlain(s) && Usable(e.cfg) && |s| >= 4 && gpuNum >= 3
    requires e.profile(s[0], gpuNum - 2).Some? && Known(e, s[1..], 2)
    ensures Schedule(e, g, gpuNum).Raised?
  {
    ChainSearch(e, g, s, gpuNum);
    var cuts := Cuts(e.lister, MakeWorkflow(e.lister, g));
    LastSplitRaises(e, cuts[0], s, gpuNum);
    assert CutBelow(e, Nodes(g), cuts[0]);
    hide Schedule, IsChain, Merge, CutBelow, OverCut, Cuts, MakeWorkflow;
    CutRaises(e, Nodes(g), cuts[0], gpuNum, None);
  }

  /** With at most two GPUs or at most three components the search does not raise, and what it finds is sound. */
  lemma SearchIsFine(e: Setup, g: Graph, gpuNum: nat)
    requires Lists(e.lister) && PlainDag(g) && Usable(e.cfg) && gpuNum > 0
    requires gpuNum <= 2 || |Nodes(g)| <= 3
    ensures Fine(e, g, gpuNum, Schedule(e, g, gpuNum))
  {
    hide Schedule, Sound, Acyclic, Nodes;
    if gpuNum <= 2 {
      FewGpusShare(e, g, gpuNum);
      if Schedule(e, g, gpuNum).value.Some? {
        ScheduleIsSound(e, g, gpuNum, Schedule(e, g, gpuNum).value.value);
      }
    } else {
      ScheduleIsFine(e, g, gpuNum);
    }
  }

  lemma KnownRest(e: Setup, s: seq<Component>, n: nat)
    requires Known(e, s, n) && |s| > 0
    ensures e.profile(s[0], n).Some? && Known(e, s[1..], n)
  {
  }

  /** On a chain of profiled components the search raises if and only if there are four of them and three GPUs. */
  lemma ChainRaisesIff(e: Setup, g: Graph, s: seq<Component>, gpuNum: nat)
    requires Lists(e.lister) && IsChain(g, s) && AllPlain(s) && Usable(e.cfg) && gpuNum > 0
    requires forall n :: 0 < n <= gpuNum ==> Known(e, s, n)
    ensures Schedule(e, g, gpuNum).Raised? <==> |s| >= 4 && gpuNum >= 3
  {
    hide *;
    ChainIsPlain(g, s);
    if |s| >= 4 && gpuNum >= 3 {
      KnownRest(e, s, gpuNum - 2);
      KnownRest(e, s, 2);
      LongChainRaises(e, g, s, gpuNum);
    } else {
      SearchIsFine(e, g, gpuNum);
      FineReturns(e, g, gpuNum);
    }
  }
}
