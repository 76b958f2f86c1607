/** `Workflow` objects and `traverse_st_cuts`. */
module Workflows {
  import opened Graphs
  import opened TopoSort

  /** The fields of a `Workflow`, all fixed by its constructor. */
  datatype Workflow = Workflow(graph: Graph, nodes: seq<Component>, topologicalOrder: seq<Component>)

  /** The order in which `list(node_set)` enumerates a set: any order, but one and the same per set. */
  type Lister = set<Component> -> seq<Component>

  ghost predicate Lists(lister: Lister) {
    forall ns {:trigger IsEnumeration(lister(ns), ns)} :: IsEnumeration(lister(ns), ns)
  }

  ghost function MakeWorkflow(lister: Lister, g: Graph): Workflow
    requires Lists(lister)
  {
    assert IsEnumeration(lister(Nodes(g)), Nodes(g));
    Workflow(g, lister(Nodes(g)), TopologicalOrder(g, lister(Nodes(g))))
  }

  /** `Workflow.__init__`. */
  method NewWorkflow(lister: Lister, g: Graph) returns (w: Workflow)
    requires Lists(lister)
    ensures w == MakeWorkflow(lister, g)
  {
    var nodes := lister(Nodes(g));
    assert IsEnumeration(nodes, Nodes(g));
    var order := TopologicalSort(g, nodes);
    w := Workflow(g, nodes, order);
  }

  /** The neighbours that lie in `sub`, in their order. */
  function NeighborsIn(ns: seq<Component>, sub: set<Component>): (r: seq<Component>)
    ensures forall v :: v in r <==> v in ns && v in sub
  {
    if ns == [] then []
    else
      var rest := NeighborsIn(ns[1..], sub);
      assert ns == [ns[0]] + ns[1..];
      if ns[0] in sub then [ns[0]] + rest else rest
  }

  /** The subgraph induced by `sub`. */
  function Restrict(g: Graph, sub: set<Component>): Graph {
    map v | v in sub :: NeighborsIn(Neighbors(g, v), sub)
  }

  lemma RestrictEdges(g: Graph, sub: set<Component>)
    ensures Nodes(Restrict(g, sub)) == sub
    ensures forall u, v :: Edge(Restrict(g, sub), u, v) <==> Edge(g, u, v) && u in sub && v in sub
  {
  }

  predicate HasEdge(g: Graph, from: set<Component>, to: set<Component>) {
    exists u | u in from :: exists v | v in Neighbors(g, u) :: v in to
  }

  function Members(s: seq<Component>): (r: set<Component>)
    ensures forall v :: v in r <==> v in s
  {
    set v | v in s
  }

  /** A cut: the induced graphs of a prefix of the order and of the rest. */
  datatype Cut = Cut(source: Workflow, sink: Workflow)

  ghost function CutAt(lister: Lister, w: Workflow, i: nat): Cut
    requires Lists(lister) && i < |w.topologicalOrder|
  {
    Cut(MakeWorkflow(lister, Restrict(w.graph, Members(w.topologicalOrder[..i + 1]))),
        MakeWorkflow(lister, Restrict(w.graph, Members(w.topologicalOrder[i + 1..]))))
  }

  predicate CutHasEdge(w: Workflow, i: nat)
    requires i < |w.topologicalOrder|
  {
    HasEdge(w.graph, Members(w.topologicalOrder[..i + 1]), Members(w.topologicalOrder[i + 1..]))
  }

  /** The positions among the first `n` of the order that have an edge across them. */
  ghost function CutPositions(w: Workflow, n: nat): (r: seq<nat>)
    requires n <= |w.topologicalOrder|
    ensures forall k :: 0 <= k < |r| ==> r[k] < n && CutHasEdge(w, r[k])
  {
    if n == 0 then [] else CutPositions(w, n - 1) + if CutHasEdge(w, n - 1) then [n - 1] else []
  }

  ghost function CutsAt(lister: Lister, w: Workflow, positions: seq<nat>): seq<Cut>
    requires Lists(lister) && forall k :: 0 <= k < |positions| ==> positions[k] < |w.topologicalOrder|
  {
    seq(|positions|, k requires 0 <= k < |positions| => CutAt(lister, w, positions[k]))
  }

  ghost function Cuts(lister: Lister, w: Workflow): seq<Cut>
    requires Lists(lister)
  {
    if |w.topologicalOrder| <= 1 then [] else CutsAt(lister, w, CutPositions(w, |w.topologicalOrder| - 1))
  }

  /** `get_sub_workflow`. */
  method SubWorkflow(lister: Lister, w: Workflow, subNodes: set<Component>) returns (r: Workflow)
    requires Lists(lister)
    ensures r == MakeWorkflow(lister, Restrict(w.graph, subNodes))
  {
    var subGraph: Graph := map[];
    var todo := subNodes;
    while todo != {}
      invariant subGraph.Keys == subNodes - todo
      invariant forall v :: v in subGraph ==> subGraph[v] == NeighborsIn(Neighbors(w.graph, v), subNodes)
      decreases todo
    {
      var node :| node in todo;
      var kept := SubNeighbors(Neighbors(w.graph, node), subNodes);
      todo := todo - {node};
      subGraph := subGraph[node := kept];
    }
    assert subGraph == Restrict(w.graph, subNodes);
    r := NewWorkflow(lister, subGraph);
  }

  method SubNeighbors(neighbors: seq<Component>, subNodes: set<Component>) returns (kept: seq<Component>)
    ensures kept == NeighborsIn(neighbors, subNodes)
  {
    kept := [];
    for k := 0 to |neighbors|
      invariant kept + NeighborsIn(neighbors[k..], subNodes) == NeighborsIn(neighbors, subNodes)
    {
      assert neighbors[k..] == [neighbors[k]] + neighbors[k + 1..];
      if neighbors[k] in subNodes {
        kept := kept + [neighbors[k]];
      }
    }
  }

  /** `traverse_st_cuts`. */
  method TraverseStCuts(lister: Lister, w: Workflow) returns (cuts: seq<Cut>)
    requires Lists(lister)
    ensures cuts == Cuts(lister, w)
  {
    hide TopologicalOrder, Restrict, HasEdge;
    cuts := [];
    if |w.topologicalOrder| <= 1 {
      return;
    }
    for i := 0 to |w.topologicalOrder| - 1
      invariant cuts == CutsAt(lister, w, CutPositions(w, i))
    {
      var sourceNodes := Members(w.topologicalOrder[..i + 1]);
      var sinkNodes := Members(w.topologicalOrder[i + 1..]);
      if HasEdge(w.graph, sourceNodes, sinkNodes) {
        var source := SubWorkflow(lister, w, sourceNodes);
        var sink := SubWorkflow(lister, w, sinkNodes);
        cuts := cuts + [Cut(source, sink)];
      }
    }
  }

  /** An edge leads from the first `i + 1` nodes of the order to the others. */
  ghost predicate EdgeAcross(w: Workflow, i: nat) {
    && i + 1 < |w.topologicalOrder|
    && exists a, b ::
      0 <= a <= i < b < |w.topologicalOrder| && Edge(w.graph, w.topologicalOrder[a], w.topologicalOrder[b])
  }

  lemma AcrossIs(w: Workflow, i: nat)
    requires i + 1 < |w.topologicalOrder|
    ensures EdgeAcross(w, i) <==> CutHasEdge(w, i)
  {
    hide *;
    if EdgeAcross(w, i) {
      AcrossHasEdge(w, i);
    }
    if CutHasEdge(w, i) {
      EdgeIsAcross(w, i);
    }
  }

  lemma AcrossHasEdge(w: Workflow, i: nat)
    requires EdgeAcross(w, i)
    ensures CutHasEdge(w, i)
  {
    var order := w.topologicalOrder;
    var a, b :| 0 <= a <= i < b < |order| && Edge(w.graph, order[a], order[b]);
    hide Members, Edge, HasEdge;
    Halved(order, i + 1, a);
    Halved(order, i + 1, b);
    EdgeBetween(w.graph, Members(order[..i + 1]), Members(order[i + 1..]), order[a], order[b]);
  }

  lemma EdgeIsAcross(w: Workflow, i: nat)
    requires i + 1 < |w.topologicalOrder| && CutHasEdge(w, i)
    ensures EdgeAcross(w, i)
  {
    hide Members, Edge, HasEdge;
    var order := w.topologicalOrder;
    var u, v := BetweenEnds(w.graph, Members(order[..i + 1]), Members(order[i + 1..]));
    var a := PlaceOf(order[..i + 1], u);
    var b := PlaceOf(order[i + 1..], v);
    assert Edge(w.graph, order[a], order[i + 1 + b]);
  }

  lemma Halved(order: seq<Component>, k: nat, a: nat)
    requires k <= |order| && a < |order|
    ensures if a < k then order[a] in Members(order[..k]) else order[a] in Members(order[k..])
  {
    if a < k {
      assert order[..k][a] == order[a];
    } else {
      assert order[k..][a - k] == order[a];
    }
  }

  lemma PlaceOf(s: seq<Component>, v: Component) returns (a: nat)
    requires v in Members(s)
    ensures a < |s| && s[a] == v
  {
    a :| a < |s| && s[a] == v;
  }

  lemma EdgeBetween(g: Graph, from: set<Component>, to: set<Component>, u: Component, v: Component)
    requires u in from && v in to && Edge(g, u, v)
    ensures HasEdge(g, from, to)
  {
  }

  lemma BetweenEnds(g: Graph, from: set<Component>, to: set<Component>) returns (u: Component, v: Component)
    requires HasEdge(g, from, to)
    ensures u in from && v in to && Edge(g, u, v)
  {
    u :| u in from && exists v | v in Neighbors(g, u) :: v in to;
    v :| v in Neighbors(g, u) && v in to;
  }

  lemma {:induction false} PositionsAre(w: Workflow, n: nat)
    requires n < |w.topologicalOrder|
    ensures forall i: nat :: i in CutPositions(w, n) <==> i < n && EdgeAcross(w, i)
    ensures forall j, k :: 0 <= j < k < |CutPositions(w, n)| ==> CutPositions(w, n)[j] < CutPositions(w, n)[k]
  {
    hide EdgeAcross, CutHasEdge;
    if n > 0 {
      PositionsAre(w, n - 1);
      AcrossIs(w, n - 1);
    }
  }

  /** The two halves of the order behind position `i`, as workflows. */
  ghost predicate IsCutAt(lister: Lister, w: Workflow, cut: Cut, i: nat)
    requires Lists(lister) && i + 1 < |w.topologicalOrder|
  {
    && cut.source == MakeWorkflow(lister, Restrict(w.graph, Members(w.topologicalOrder[..i + 1])))
    && cut.sink == MakeWorkflow(lister, Restrict(w.graph, Members(w.topologicalOrder[i + 1..])))
  }

  /** The cuts of a workflow: one, in order, for each position of the order that an edge leads across. */
  lemma CutsAreAcross(lister: Lister, w: Workflow) returns (positions: seq<nat>)
    requires Lists(lister)
    ensures |positions| == |Cuts(lister, w)|
    ensures forall i: nat :: i in positions <==> EdgeAcross(w, i)
    ensures forall j, k :: 0 <= j < k < |positions| ==> positions[j] < positions[k]
    ensures forall k :: 0 <= k < |positions| ==>
      positions[k] + 1 < |w.topologicalOrder| && IsCutAt(lister, w, Cuts(lister, w)[k], positions[k])
  {
    hide *;
    CutsUnfold(lister, w);
    AcrossBefore(w);
    if |w.topologicalOrder| <= 1 {
      positions := [];
    } else {
      positions := CutPositions(w, |w.topologicalOrder| - 1);
      PositionsAre(w, |w.topologicalOrder| - 1);
    }
  }

  lemma CutsUnfold(lister: Lister, w: Workflow)
    requires Lists(lister)
    ensures |w.topologicalOrder| <= 1 ==> Cuts(lister, w) == []
    ensures |w.topologicalOrder| > 1 ==>
      var positions := CutPositions(w, |w.topologicalOrder| - 1);
      && |Cuts(lister, w)| == |positions|
      && forall k :: 0 <= k < |positions| ==>
        positions[k] + 1 < |w.topologicalOrder| && IsCutAt(lister, w, Cuts(lister, w)[k], positions[k])
  {
    hide CutHasEdge, MakeWorkflow, Restrict, Members;
  }

  lemma AcrossBefore(w: Workflow)
    ensures forall i: nat :: EdgeAcross(w, i) ==> i + 1 < |w.topologicalOrder|
  {
  }

  /** What makes a pair of node sets a cut of `g` whose edges all run from `a` to `b`. */
  ghost predicate IsForwardCut(g: Graph, a: set<Component>, b: set<Component>) {
    && a != {} && b != {} && a !! b && a + b == Nodes(g)
    && (exists u, v :: u in a && v in b && Edge(g, u, v))
    && (forall u, v :: u in b && v in a ==> !Edge(g, u, v))
  }

  lemma RestrictReach(g: Graph, sub: set<Component>, x: Component, y: Component)
    requires Reach(Restrict(g, sub), x, y)
    ensures Reach(g, x, y)
  {
    RestrictEdges(g, sub);
    var p :| IsPath(Restrict(g, sub), p, x, y);
    assert IsPath(g, p, x, y);
  }

  lemma RestrictAcyclic(g: Graph, sub: set<Component>)
    requires Acyclic(g)
    ensures Acyclic(Restrict(g, sub))
  {
    RestrictEdges(g, sub);
    forall x, y | Edge(Restrict(g, sub), x, y)
      ensures !Reach(Restrict(g, sub), y, x)
    {
      if Reach(Restrict(g, sub), y, x) {
        RestrictReach(g, sub, y, x);
      }
    }
  }

  /** Restricting twice is restricting once. */
  lemma RestrictTwice(g: Graph, a: set<Component>, b: set<Component>)
    requires b <= a
    ensures Restrict(Restrict(g, a), b) == Restrict(g, b)
  {
    forall v | v in b
      ensures NeighborsIn(NeighborsIn(Neighbors(g, v), a), b) == NeighborsIn(Neighbors(g, v), b)
    {
      NeighborsInTwice(Neighbors(g, v), a, b);
    }
  }

  lemma {:induction false} NeighborsInTwice(ns: seq<Component>, a: set<Component>, b: set<Component>)
    requires b <= a
    ensures NeighborsIn(NeighborsIn(ns, a), b) == NeighborsIn(ns, b)
  {
    if ns != [] {
      NeighborsInTwice(ns[1..], a, b);
      if ns[0] in a {
        assert NeighborsIn(ns, a)[1..] == NeighborsIn(ns[1..], a);
      }
    }
  }

  lemma PrefixCut(g: Graph, order: seq<Component>, i: nat)
    requires Distinct(order) && i + 1 < |order| && forall v :: v in order ==> v in Nodes(g)
    requires HasEdge(g, Members(order[..i + 1]), Members(order[i + 1..]))
    ensures var a, b := Members(order[..i + 1]), Members(order[i + 1..]);
            && a != {} && b != {} && a !! b && a + b <= Nodes(g)
            && (exists u, v :: u in a && v in b && Edge(g, u, v))
  {
    var a, b := Members(order[..i + 1]), Members(order[i + 1..]);
    CutSplits(order, i + 1);
    assert order[i] in a && order[i + 1] in b;
    var u :| u in a && exists v | v in Neighbors(g, u) :: v in b;
    var v :| v in Neighbors(g, u) && v in b;
    assert Edge(g, u, v);
  }

  lemma MembersSplit(order: seq<Component>, n: nat)
    requires n <= |order|
    ensures Members(order[..n]) + Members(order[n..]) == Members(order)
  {
    assert order == order[..n] + order[n..];
  }

  lemma AllMembers(g: Graph, order: seq<Component>)
    requires forall v :: v in order <==> v in Nodes(g)
    ensures Members(order) == Nodes(g)
  {
  }

  lemma AcyclicCut(g: Graph, order: seq<Component>, i: nat)
    requires ForwardOrder(g, order) && i + 1 < |order|
    requires forall v :: v in order <==> v in Nodes(g)
    requires HasEdge(g, Members(order[..i + 1]), Members(order[i + 1..]))
    ensures IsForwardCut(g, Members(order[..i + 1]), Members(order[i + 1..]))
  {
    PrefixCut(g, order, i);
    MembersSplit(order, i + 1);
    AllMembers(g, order);
    hide HasEdge, Members, ForwardOrder, Edge, Nodes;
    forall u, v | u in Members(order[i + 1..]) && v in Members(order[..i + 1])
      ensures !Edge(g, u, v)
    {
      NoBackwardEdge(g, order, i + 1, u, v);
    }
  }

  /** Both sides of a cut are induced subgraphs on disjoint non-empty parts of the nodes, cyclic or not. */
  lemma CutSides(lister: Lister, g: Graph, k: nat) returns (a: set<Component>, b: set<Component>)
    requires Lists(lister) && k < |Cuts(lister, MakeWorkflow(lister, g))|
    ensures var cut := Cuts(lister, MakeWorkflow(lister, g))[k];
            && cut.source == MakeWorkflow(lister, Restrict(g, a))
            && cut.sink == MakeWorkflow(lister, Restrict(g, b))
    ensures a != {} && b != {} && a !! b && a + b <= Nodes(g)
    ensures exists u, v :: u in a && v in b && Edge(g, u, v)
    ensures Acyclic(g) ==> IsForwardCut(g, a, b)
  {
    hide TopologicalOrder, Restrict, HasEdge;
    var w := MakeWorkflow(lister, g);
    var order := w.topologicalOrder;
    var i := CutPositions(w, |order| - 1)[k];
    a, b := Members(order[..i + 1]), Members(order[i + 1..]);
    assert IsEnumeration(w.nodes, Nodes(g));
    OrderFacts(g, w.nodes);
    PrefixCut(g, order, i);
    if Acyclic(g) {
      AcyclicCut(g, order, i);
    }
  }

  lemma OrderFacts(g: Graph, nodes: seq<Component>)
    requires IsEnumeration(nodes, Nodes(g))
    ensures Distinct(TopologicalOrder(g, nodes))
    ensures forall v :: v in TopologicalOrder(g, nodes) ==> v in Nodes(g)
    ensures Acyclic(g) ==> ForwardOrder(g, TopologicalOrder(g, nodes)) && forall v :: v in Nodes(g) ==>
      v in TopologicalOrder(g, nodes)
  {
    TopologicalOrderLists(g, nodes);
    CompleteIffAcyclic(g, nodes);
  }

  lemma CutSplits(order: seq<Component>, n: nat)
    requires Distinct(order) && n <= |order|
    ensures Members(order[..n]) !! Members(order[n..])
    ensures Members(order[..n]) + Members(order[n..]) == Members(order)
  {
    assert order == order[..n] + order[n..];
    forall v | v in order[..n]
      ensures v !in order[n..]
    {
      var i :| 0 <= i < n && order[i] == v;
      assert forall j :: 0 <= j < |order[n..]| ==> order[n..][j] == order[n + j];
    }
  }

  lemma NoBackwardEdge(g: Graph, order: seq<Component>, n: nat, u: Component, v: Component)
    requires ForwardOrder(g, order) && n <= |order| && u in order[n..] && v in order[..n]
    ensures !Edge(g, u, v)
  {
    var k :| 0 <= k < |order[n..]| && order[n..][k] == u;
    assert order[n + k] == u;
    var m :| 0 <= m < n && order[m] == v;
  }
}
