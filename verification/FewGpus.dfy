/**
 * The search with one or two GPUs: no pipeline is tried, so it never raises, and when it finds a schedule is plain to
 * see.
 */
module FewGpus {
  import opened Graphs
  import opened Wrappers
  import opened Workflows
  import opened Placement
  import opened Scheduling
  import opened ScheduleProps

  /** Everything shares all GPUs. */
  ghost predicate Shared(r: ScheduleResult, gpuNum: nat) {
    && SingleMode(r, true) && r.totalGpuNum == gpuNum && r.placement != []
    && OnAll(r.placement, gpuNum)
  }

  ghost predicate OnAll(p: PlacementMap, gpuNum: nat) {
    forall i :: 0 <= i < |p| ==> p[i].lo == 0 && p[i].hi == gpuNum
  }

  lemma {:induction false} SetOnAll(p: PlacementMap, e: Entry, gpuNum: nat)
    requires OnAll(p, gpuNum) && e.lo == 0 && e.hi == gpuNum
    ensures OnAll(DictSet(p, e), gpuNum) && DictSet(p, e) != []
  {
    if p != [] && p[0].node != e.node {
      SetOnAll(p[1..], e, gpuNum);
    }
  }

  lemma {:induction false} UpdateOnAll(p: PlacementMap, q: PlacementMap, gpuNum: nat)
    requires OnAll(p, gpuNum) && OnAll(q, gpuNum)
    ensures OnAll(DictUpdate(p, q), gpuNum) && (p != [] ==> DictUpdate(p, q) != [])
    decreases q
  {
    if q != [] {
      SetOnAll(p, q[0], gpuNum);
      UpdateOnAll(DictSet(p, q[0]), q[1..], gpuNum);
    }
  }

  /** Two shared schedules merge into a shared one, in every task. */
  lemma SharedMerge(cfg: Config, gpuNum: nat, source: ScheduleResult, sink: ScheduleResult)
    requires Shared(source, gpuNum) && Shared(sink, gpuNum)
    ensures var r := Merge(cfg, gpuNum, Some(source), Some(sink), true, 1);
      && r.Returned? && r.value.Some? && Shared(r.value.value, gpuNum)
      && r.value.value.Collocated? && r.value.value.source == source && r.value.value.sink == sink
      && r.value.value.totalCost == source.totalCost + sink.totalCost
  {
    UpdateOnAll(source.placement, sink.placement, gpuNum);
  }

  // ---------------------------------------------------------------- which workflows can be shared

  /** The workflow falls apart into its components by repeated cutting. */
  ghost predicate Divisible(lister: Lister, g: Graph)
    requires Lists(lister)
    decreases Nodes(g)
  {
    var w := MakeWorkflow(lister, g);
    |w.nodes| == 1 || exists k ::
      0 <= k < |Cuts(lister, w)| && SidesBelow(lister, g, k)
      && Divisible(lister, Cuts(lister, w)[k].source.graph) && Divisible(lister, Cuts(lister, w)[k].sink.graph)
  }

  ghost predicate SidesBelow(lister: Lister, g: Graph, k: nat)
    requires Lists(lister) && k < |Cuts(lister, MakeWorkflow(lister, g))|
  {
    var cut := Cuts(lister, MakeWorkflow(lister, g))[k];
    Nodes(cut.source.graph) < Nodes(g) && Nodes(cut.sink.graph) < Nodes(g)
  }

  ghost predicate AllProfiled(e: Setup, g: Graph, gpuNum: nat) {
    forall v :: v in Nodes(g) ==> e.profile(v, gpuNum).Some?
  }

  /** Acyclic, not empty, and without compressed components. */
  ghost predicate PlainDag(g: Graph) {
    Acyclic(g) && Nodes(g) != {} && forall v :: v in Nodes(g) ==> v.Plain?
  }

  /** What the search returns on few GPUs: never an exception, and a shared schedule exactly where it should. */
  ghost predicate SharedIff(e: Setup, g: Graph, gpuNum: nat, f: Found)
    requires Lists(e.lister)
  {
    && f.Returned? && (f.value.Some? ==> Shared(f.value.value, gpuNum))
    && (f.value.Some? <==> Divisible(e.lister, g) && AllProfiled(e, g, gpuNum))
  }

  /** A cut both of whose sides have a schedule. */
  ghost predicate GoodCut(e: Setup, cut: Cut, gpuNum: nat)
    requires Lists(e.lister)
  {
    Schedule(e, cut.source.graph, gpuNum).Returned? && Schedule(e, cut.source.graph, gpuNum).value.Some?
    && Schedule(e, cut.sink.graph, gpuNum).Returned? && Schedule(e, cut.sink.graph, gpuNum).value.Some?
  }

  /** Both sides of the cut are searched without an exception, and share all GPUs. */
  ghost predicate SharedSides(e: Setup, cut: Cut, gpuNum: nat)
    requires Lists(e.lister)
  {
    && SharedFound(Schedule(e, cut.source.graph, gpuNum), gpuNum)
    && SharedFound(Schedule(e, cut.sink.graph, gpuNum), gpuNum)
  }

  ghost predicate SharedFound(f: Found, gpuNum: nat) {
    f.Returned? && SharedBest(f.value, gpuNum)
  }

  ghost predicate SharedBest(best: Option<ScheduleResult>, gpuNum: nat) {
    best.Some? ==> Shared(best.value, gpuNum)
  }

  /** One cut on few GPUs: only the collocated merge is tried. */
  lemma SharedCut(e: Setup, bound: set<Component>, cut: Cut, gpuNum: nat, best: Option<ScheduleResult>)
    requires Lists(e.lister) && CutBelow(e, bound, cut) && gpuNum <= 2 && SharedSides(e, cut, gpuNum)
    requires SharedBest(best, gpuNum)
    ensures SharedFound(OverCut(e, bound, cut, gpuNum, best), gpuNum)
    ensures OverCut(e, bound, cut, gpuNum, best).value.Some? <==> best.Some? || GoodCut(e, cut, gpuNum)
  {
    var source, sink := Schedule(e, cut.source.graph, gpuNum).value, Schedule(e, cut.sink.graph, gpuNum).value;
    hide Schedule, Merge, Shared;
    if source.Some? && sink.Some? {
      SharedMerge(e.cfg, gpuNum, source.value, sink.value);
    } else {
      MergeOfNone(e.cfg, gpuNum, source, sink, true);
    }
  }

  lemma MergeOfNone(cfg: Config, gpuNum: nat, source: Option<ScheduleResult>, sink: Option<ScheduleResult>,
      isCollocated: bool)
    requires source.None? || sink.None?
    ensures Merge(cfg, gpuNum, source, sink, isCollocated, 1) == Returned(None)
  {
  }

  lemma {:induction false} SharedCuts(e: Setup, bound: set<Component>, cuts: seq<Cut>, i: nat, gpuNum: nat,
      best: Option<ScheduleResult>)
    requires Lists(e.lister) && CutsBelow(e, bound, cuts) && i <= |cuts| && gpuNum <= 2
    requires forall k :: 0 <= k < |cuts| ==> SharedSides(e, cuts[k], gpuNum)
    requires SharedBest(best, gpuNum)
    ensures SharedFound(OverCuts(e, bound, cuts, i, gpuNum, best), gpuNum)
    ensures OverCuts(e, bound, cuts, i, gpuNum, best).value.Some? <==>
      best.Some? || exists k :: i <= k < |cuts| && GoodCut(e, cuts[k], gpuNum)
    decreases |cuts| - i
  {
    hide SharedSides, OverCut, CutBelow, GoodCut, Shared;
    if i < |cuts| {
      assert CutBelow(e, bound, cuts[i]);
      SharedCut(e, bound, cuts[i], gpuNum, best);
      SharedCuts(e, bound, cuts, i + 1, gpuNum, OverCut(e, bound, cuts[i], gpuNum, best).value);
    }
  }

  // ---------------------------------------------------------------- every workflow

  lemma SidesArePlain(lister: Lister, g: Graph, k: nat)
    requires Lists(lister) && PlainDag(g) && k < |Cuts(lister, MakeWorkflow(lister, g))|
    ensures var cut := Cuts(lister, MakeWorkflow(lister, g))[k];
      && PlainDag(cut.source.graph) && PlainDag(cut.sink.graph) && SidesBelow(lister, g, k)
      && Nodes(cut.source.graph) + Nodes(cut.sink.graph) == Nodes(g)
  {
    hide Cuts, MakeWorkflow, Restrict, Acyclic, Edge, Nodes, Lists;
    var a, b := CutSides(lister, g, k);
    RestrictEdges(g, a);
    RestrictEdges(g, b);
    RestrictAcyclic(g, a);
    RestrictAcyclic(g, b);
    WorkflowGraph(lister, Restrict(g, a));
    WorkflowGraph(lister, Restrict(g, b));
    var u :| u in a;
    var v :| v in b;
  }

  lemma SidesProfiled(e: Setup, g: Graph, a: Graph, b: Graph, gpuNum: nat)
    requires Nodes(a) + Nodes(b) == Nodes(g)
    ensures AllProfiled(e, g, gpuNum) <==> AllProfiled(e, a, gpuNum) && AllProfiled(e, b, gpuNum)
  {
    hide Nodes;
    if AllProfiled(e, a, gpuNum) && AllProfiled(e, b, gpuNum) {
      forall v | v in Nodes(g)
        ensures e.profile(v, gpuNum).Some?
      {
        assert v in Nodes(a) || v in Nodes(b);
      }
    }
  }

  lemma SharedLeaf(e: Setup, g: Graph, node: Component, gpuNum: nat)
    requires Nodes(g) == {node} && node.Plain? && Usable(e.cfg)
    ensures var f := LeafSchedule(e, node, gpuNum);
      SharedFound(f, gpuNum) && (f.value.Some? <==> AllProfiled(e, g, gpuNum))
  {
    hide Nodes;
  }

  /**
   * With at most two GPUs the search never raises, however many components there are, and finds a schedule exactly
   * when the workflow falls apart into its components by cutting and each of them can run on all GPUs.
   */
  lemma {:induction false} FewGpusShare(e: Setup, g: Graph, gpuNum: nat)
    requires Lists(e.lister) && PlainDag(g) && Usable(e.cfg) && gpuNum <= 2
    ensures SharedIff(e, g, gpuNum, Schedule(e, g, gpuNum))
    decreases Nodes(g)
  {
    hide MakeWorkflow, Cuts, OverCuts, CutsBelow, PlainDag, LeafSchedule, Shared, AllProfiled, GoodCut;
    var w := MakeWorkflow(e.lister, g);
    var cuts := Cuts(e.lister, w);
    if |w.nodes| == 1 {
      SingletonNodes(e.lister, g);
      NodeIsPlain(g, w.nodes[0]);
      SharedLeaf(e, g, w.nodes[0], gpuNum);
    } else {
      CutsAreBelow(e, g);
      forall k | 0 <= k < |cuts|
        ensures SidesBelow(e.lister, g, k) && SharedSides(e, cuts[k], gpuNum)
        ensures GoodCut(e, cuts[k], gpuNum) <==>
          AllProfiled(e, g, gpuNum) && Divisible(e.lister, cuts[k].source.graph)
            && Divisible(e.lister, cuts[k].sink.graph)
      {
        SidesArePlain(e.lister, g, k);
        FewGpusShare(e, cuts[k].source.graph, gpuNum);
        FewGpusShare(e, cuts[k].sink.graph, gpuNum);
        SidesProfiled(e, g, cuts[k].source.graph, cuts[k].sink.graph, gpuNum);
        GoodSides(e, cuts[k], gpuNum);
      }
      SharedCuts(e, Nodes(g), cuts, 0, gpuNum, None);
    }
  }

  lemma GoodSides(e: Setup, cut: Cut, gpuNum: nat)
    requires Lists(e.lister)
    requires SharedIff(e, cut.source.graph, gpuNum, Schedule(e, cut.source.graph, gpuNum))
    requires SharedIff(e, cut.sink.graph, gpuNum, Schedule(e, cut.sink.graph, gpuNum))
    ensures SharedSides(e, cut, gpuNum)
    ensures GoodCut(e, cut, gpuNum) <==>
      && Divisible(e.lister, cut.source.graph) && AllProfiled(e, cut.source.graph, gpuNum)
      && Divisible(e.lister, cut.sink.graph) && AllProfiled(e, cut.sink.graph, gpuNum)
  {
    hide Schedule, Divisible, AllProfiled, Shared;
  }

  lemma NodeIsPlain(g: Graph, v: Component)
    requires PlainDag(g) && v in Nodes(g)
    ensures v.Plain?
  {
  }
}
