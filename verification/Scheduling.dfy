/** `AutoPlacementWorker._find_schedule`: the memoised search over cuts and GPU splits. */
module Scheduling {
  import opened Graphs
  import opened Wrappers
  import opened Workflows
  import opened Placement

  /** The measured cost of a component on a number of GPUs, if it can run on so many. */
  type Profile = (Component, nat) -> Option<real>

  /** What a run is given: the configuration, the leaf costs and the order of node sets. */
  datatype Setup = Setup(cfg: Config, profile: Profile, lister: Lister)

  type Found = Outcome<Option<ScheduleResult>>

  /** A workflow of one node; profiling an `SccNode` is not implemented and raises. */
  function LeafSchedule(e: Setup, node: Component, gpuNum: nat): Found {
    if node.Scc? then Raised
    else match e.profile(node, gpuNum)
      case None => Returned(None)
      case Some(cost) =>
        if e.cfg.taskType.Reasoning? then
          Returned(Some(NewSingle(gpuNum, node, cost, cost * e.cfg.rolloutBatchSize as real)))
        else if e.cfg.envNum == 0 then Raised
        else Returned(Some(NewSingle(gpuNum, node, cost / e.cfg.envNum as real, cost)))
  }

  /** Both sides of every cut are workflows on strictly fewer nodes than `bound`. */
  ghost predicate CutsBelow(e: Setup, bound: set<Component>, cuts: seq<Cut>)
    requires Lists(e.lister)
  {
    forall k :: 0 <= k < |cuts| ==> CutBelow(e, bound, cuts[k])
  }

  ghost predicate CutBelow(e: Setup, bound: set<Component>, cut: Cut)
    requires Lists(e.lister)
  {
    && Nodes(cut.source.graph) < bound && Nodes(cut.sink.graph) < bound
    && cut.source == MakeWorkflow(e.lister, cut.source.graph)
    && cut.sink == MakeWorkflow(e.lister, cut.sink.graph)
  }

  lemma WorkflowGraph(lister: Lister, g: Graph)
    requires Lists(lister)
    ensures MakeWorkflow(lister, g).graph == g
  {
    hide TopoSort.TopologicalOrder;
  }

  lemma CutIsBelow(e: Setup, g: Graph, k: nat)
    requires Lists(e.lister) && k < |Cuts(e.lister, MakeWorkflow(e.lister, g))|
    ensures CutBelow(e, Nodes(g), Cuts(e.lister, MakeWorkflow(e.lister, g))[k])
  {
    hide Cuts, MakeWorkflow, Restrict, Acyclic, Nodes, Edge, IsForwardCut, Lists;
    var a, b := CutSides(e.lister, g, k);
    RestrictEdges(g, a);
    RestrictEdges(g, b);
    WorkflowGraph(e.lister, Restrict(g, a));
    WorkflowGraph(e.lister, Restrict(g, b));
    var u :| u in a;
    var v :| v in b;
  }

  lemma CutsAreBelow(e: Setup, g: Graph)
    requires Lists(e.lister)
    ensures CutsBelow(e, Nodes(g), Cuts(e.lister, MakeWorkflow(e.lister, g)))
  {
    hide Cuts, MakeWorkflow, CutBelow, Nodes;
    forall k | 0 <= k < |Cuts(e.lister, MakeWorkflow(e.lister, g))|
      ensures CutBelow(e, Nodes(g), Cuts(e.lister, MakeWorkflow(e.lister, g))[k])
    {
      CutIsBelow(e, g, k);
    }
  }

  /** The search without its cache. */
  ghost function Schedule(e: Setup, g: Graph, gpuNum: nat): Found
    requires Lists(e.lister)
    decreases Nodes(g), 2, 0
  {
    var w := MakeWorkflow(e.lister, g);
    if |w.nodes| == 1 then LeafSchedule(e, w.nodes[0], gpuNum)
    else
      CutsAreBelow(e, g);
      OverCuts(e, Nodes(g), Cuts(e.lister, w), 0, gpuNum, None)
  }

  /** The loop over the cuts from number `i` on. */
  ghost function OverCuts(e: Setup, bound: set<Component>, cuts: seq<Cut>, i: nat, gpuNum: nat,
      best: Option<ScheduleResult>): Found
    requires Lists(e.lister) && CutsBelow(e, bound, cuts) && i <= |cuts|
    decreases bound, 1, 1, |cuts| - i
  {
    if i == |cuts| then Returned(best)
    else
      assert CutBelow(e, bound, cuts[i]);
      var best' :- OverCut(e, bound, cuts[i], gpuNum, best);
      OverCuts(e, bound, cuts, i + 1, gpuNum, best')
  }

  ghost function OverCut(e: Setup, bound: set<Component>, cut: Cut, gpuNum: nat, best: Option<ScheduleResult>): Found
    requires Lists(e.lister) && CutBelow(e, bound, cut)
    decreases bound, 1, 0
  {
    var sourceRes :- Schedule(e, cut.source.graph, gpuNum);
    var sinkRes :- Schedule(e, cut.sink.graph, gpuNum);
    var collocated :- Merge(e.cfg, gpuNum, sourceRes, sinkRes, true, 1);
    OverSplits(e, bound, cut, 1, gpuNum, FindBest(best, collocated))
  }

  /** The loop `for source_gpu_num in range(s, gpu_num - 1)`. */
  ghost function OverSplits(e: Setup, bound: set<Component>, cut: Cut, s: nat, gpuNum: nat,
      best: Option<ScheduleResult>): Found
    requires Lists(e.lister) && CutBelow(e, bound, cut)
    decreases bound, 0, gpuNum - s
  {
    if s >= gpuNum - 1 then Returned(best)
    else
      var sourceRes :- Schedule(e, cut.source.graph, s);
      var sinkRes :- Schedule(e, cut.sink.graph, gpuNum - s);
      var pipelined :- Merge(e.cfg, gpuNum, sourceRes, sinkRes, false, 1);
      OverSplits(e, bound, cut, s + 1, gpuNum, FindBest(best, pipelined))
  }

  /** What equality and hashing of workflows look at: node set, keys, and the set of neighbours of each key. */
  datatype Key = Key(nodes: set<Component>, edges: map<Component, set<Component>>, gpuNum: nat)

  function KeyOf(w: Workflow, gpuNum: nat): Key {
    Key(Members(w.nodes), map u | u in w.graph :: Members(w.graph[u]), gpuNum)
  }

  /** The graphs a run meets: the root and its induced subgraphs on fewer nodes. */
  ghost predicate InRun(root: Graph, g: Graph) {
    g == root || exists sub :: sub < Nodes(root) && g == Restrict(root, sub)
  }

  lemma InRunSub(root: Graph, g: Graph, sub: set<Component>)
    requires InRun(root, g) && sub < Nodes(g)
    ensures InRun(root, Restrict(g, sub))
  {
    if g != root {
      var outer :| outer < Nodes(root) && g == Restrict(root, outer);
      RestrictEdges(root, outer);
      RestrictTwice(root, outer, sub);
      assert sub < Nodes(root);
    }
  }

  lemma KeyNodes(lister: Lister, g: Graph, n: nat)
    requires Lists(lister)
    ensures KeyOf(MakeWorkflow(lister, g), n).nodes == Nodes(g) && KeyOf(MakeWorkflow(lister, g), n).gpuNum == n
  {
    hide TopoSort.TopologicalOrder;
    assert IsEnumeration(lister(Nodes(g)), Nodes(g));
  }

  /** Within one run the cache key, which forgets order and repetition of neighbours, determines the graph. */
  lemma KeyDeterminesGraph(lister: Lister, root: Graph, g: Graph, h: Graph, m: nat, n: nat)
    requires Lists(lister) && InRun(root, g) && InRun(root, h)
    requires KeyOf(MakeWorkflow(lister, g), m) == KeyOf(MakeWorkflow(lister, h), n)
    ensures g == h && m == n
  {
    hide MakeWorkflow, KeyOf, Restrict;
    KeyNodes(lister, g, m);
    KeyNodes(lister, h, n);
    forall sub | sub < Nodes(root)
      ensures Nodes(Restrict(root, sub)) == sub
    {
      RestrictEdges(root, sub);
    }
  }

  class AutoPlacementWorker {
    const setup: Setup
    const root: Graph
    var resultCache: map<Key, Option<ScheduleResult>>

    /** Whatever is cached under the key of a workflow of this run is its schedule. */
    ghost predicate Valid()
      reads this
    {
      && Lists(setup.lister)
      && forall g, n :: InRun(root, g) && KeyOf(MakeWorkflow(setup.lister, g), n) in resultCache ==>
        Schedule(setup, g, n) == Returned(resultCache[KeyOf(MakeWorkflow(setup.lister, g), n)])
    }

    constructor (setup: Setup, root: Graph)
      requires Lists(setup.lister)
      ensures Valid() && this.setup == setup && this.root == root
    {
      this.setup := setup;
      this.root := root;
      resultCache := map[];
    }

    method Store(w: Workflow, gpuNum: nat, r: Option<ScheduleResult>)
      requires Valid() && InRun(root, w.graph) && w == MakeWorkflow(setup.lister, w.graph)
      requires Schedule(setup, w.graph, gpuNum) == Returned(r)
      modifies this`resultCache
      ensures Valid() && resultCache == old(resultCache)[KeyOf(w, gpuNum) := r]
    {
      resultCache := resultCache[KeyOf(w, gpuNum) := r];
      forall g, n | InRun(root, g) && KeyOf(MakeWorkflow(setup.lister, g), n) in resultCache
        ensures Schedule(setup, g, n) == Returned(resultCache[KeyOf(MakeWorkflow(setup.lister, g), n)])
      {
        if KeyOf(MakeWorkflow(setup.lister, g), n) == KeyOf(w, gpuNum) {
          KeyDeterminesGraph(setup.lister, root, g, w.graph, n, gpuNum);
        }
      }
    }

    /** `_find_schedule`: returns what the plain search returns, and keeps the cache sound, also when it raises. */
    method FindSchedule(w: Workflow, gpuNum: nat) returns (r: Found)
      requires Valid() && InRun(root, w.graph) && w == MakeWorkflow(setup.lister, w.graph)
      modifies this`resultCache
      ensures Valid()
      ensures r == Schedule(setup, w.graph, gpuNum)
      decreases Nodes(w.graph), 2
    {
      hide MakeWorkflow, Cuts, KeyOf, InRun;
      var key := KeyOf(w, gpuNum);
      if key in resultCache {
        return Returned(resultCache[key]);
      }
      if |w.nodes| == 1 {
        r := LeafSchedule(setup, w.nodes[0], gpuNum);
        if r.Returned? && r.value.Some? {
          Store(w, gpuNum, r.value);
        }
        return;
      }
      var cuts := TraverseStCuts(setup.lister, w);
      CutsAreBelow(setup, w.graph);
      CutsInRun(setup, root, w.graph);
      var best: Option<ScheduleResult> := None;
      for i := 0 to |cuts|
        invariant Valid()
        invariant OverCuts(setup, Nodes(w.graph), cuts, i, gpuNum, best) == Schedule(setup, w.graph, gpuNum)
      {
        var tried := TryCut(cuts[i], gpuNum, best, Nodes(w.graph));
        if tried.Raised? {
          return Raised;
        }
        best := tried.value;
      }
      Store(w, gpuNum, best);
      r := Returned(best);
    }

    /** One turn of the loop over the cuts: the collocated merge, then every pipelined one. */
    method TryCut(cut: Cut, gpuNum: nat, best: Option<ScheduleResult>, ghost bound: set<Component>) returns (r: Found)
      requires Valid() && CutBelow(setup, bound, cut) && CutInRun(root, cut)
      modifies this`resultCache
      ensures Valid()
      ensures r == OverCut(setup, bound, cut, gpuNum, best)
      decreases bound, 1
    {
      hide Schedule, Merge, FindBest, InRun;
      var sourceRes := FindSchedule(cut.source, gpuNum);
      if sourceRes.Raised? { return Raised; }
      var sinkRes := FindSchedule(cut.sink, gpuNum);
      if sinkRes.Raised? { return Raised; }
      var collocated := Merge(setup.cfg, gpuNum, sourceRes.value, sinkRes.value, true, 1);
      if collocated.Raised? { return Raised; }
      var best' := FindBest(best, collocated.value);
      var s := 1;
      while s < gpuNum - 1
        invariant Valid()
        invariant OverSplits(setup, bound, cut, s, gpuNum, best') == OverCut(setup, bound, cut, gpuNum, best)
      {
        sourceRes := FindSchedule(cut.source, s);
        if sourceRes.Raised? { return Raised; }
        sinkRes := FindSchedule(cut.sink, gpuNum - s);
        if sinkRes.Raised? { return Raised; }
        var pipelined := Merge(setup.cfg, gpuNum, sourceRes.value, sinkRes.value, false, 1);
        if pipelined.Raised? { return Raised; }
        best' := FindBest(best', pipelined.value);
        s := s + 1;
      }
      r := Returned(best');
    }

    /** `run`: starts from an empty cache. */
    method Run(gpuNum: nat) returns (r: Found)
      requires Valid()
      modifies this`resultCache
      ensures Valid()
      ensures r == Schedule(setup, root, gpuNum)
    {
      resultCache := map[];
      var w := NewWorkflow(setup.lister, root);
      WorkflowGraph(setup.lister, root);
      r := FindSchedule(w, gpuNum);
    }
  }

  ghost predicate CutInRun(root: Graph, cut: Cut) {
    InRun(root, cut.source.graph) && InRun(root, cut.sink.graph)
  }

  lemma CutsInRun(e: Setup, root: Graph, g: Graph)
    requires Lists(e.lister) && InRun(root, g)
    ensures forall k :: 0 <= k < |Cuts(e.lister, MakeWorkflow(e.lister, g))| ==>
      CutInRun(root, Cuts(e.lister, MakeWorkflow(e.lister, g))[k])
  {
    hide Cuts, MakeWorkflow, InRun, Nodes, Restrict;
    forall k | 0 <= k < |Cuts(e.lister, MakeWorkflow(e.lister, g))|
      ensures CutInRun(root, Cuts(e.lister, MakeWorkflow(e.lister, g))[k])
    {
      var a, b := CutSides(e.lister, g, k);
      WorkflowGraph(e.lister, Restrict(g, a));
      WorkflowGraph(e.lister, Restrict(g, b));
      var u :| u in a;
      var v :| v in b;
      InRunSub(root, g, a);
      InRunSub(root, g, b);
    }
  }
}
