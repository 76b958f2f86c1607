/** Workflows in which every component feeds the next one: their order, their cuts and the search over them. */
module Chains {
  import opened Graphs
  import opened TopoSort
  import opened Wrappers
  import opened Workflows
  import opened Scheduling

  /** `g` is the path through `s`, as in a dictionary with a key for every component. */
  ghost predicate IsChain(g: Graph, s: seq<Component>) {
    && |s| > 0 && Distinct(s) && g.Keys == Members(s)
    && forall i :: 0 <= i < |s| ==> g[s[i]] == Following(s, i)
  }

  function Following(s: seq<Component>, i: nat): seq<Component>
    requires i < |s|
  {
    if i + 1 < |s| then [s[i + 1]] else []
  }

  lemma ChainEdge(g: Graph, s: seq<Component>, u: Component, v: Component) returns (i: nat)
    requires IsChain(g, s) && Edge(g, u, v)
    ensures i + 1 < |s| && s[i] == u && s[i + 1] == v
  {
    i :| 0 <= i < |s| && s[i] == u;
  }

  lemma ChainNodes(g: Graph, s: seq<Component>)
    requires IsChain(g, s)
    ensures Nodes(g) == Members(s)
    ensures forall i :: 0 <= i < |s| - 1 ==> Edge(g, s[i], s[i + 1])
  {
    forall u, v | u in g.Keys && v in g[u]
      ensures v in Members(s)
    {
      var i := ChainEdge(g, s, u, v);
    }
  }

  lemma ChainForward(g: Graph, s: seq<Component>)
    requires IsChain(g, s)
    ensures ForwardOrder(g, s) && Acyclic(g)
  {
    forall u, v | Edge(g, u, v)
      ensures exists i, j :: 0 <= i < j < |s| && s[i] == u && s[j] == v
    {
      var i := ChainEdge(g, s, u, v);
    }
    ForwardOrderIsAcyclic(g, s);
  }

  // ---------------------------------------------------------------- the only order

  lemma EdgeForward(g: Graph, order: seq<Component>, u: Component, v: Component) returns (a: nat, b: nat)
    requires ForwardOrder(g, order) && Edge(g, u, v)
    ensures a < b < |order| && order[a] == u && order[b] == v
  {
    a, b :| 0 <= a < b < |order| && order[a] == u && order[b] == v;
  }

  lemma {:induction false} NotEarlier(g: Graph, s: seq<Component>, order: seq<Component>, i: nat) returns (p: nat)
    requires IsChain(g, s) && ForwardOrder(g, order) && i < |s| && forall v :: v in s ==> v in order
    ensures i <= p < |order| && order[p] == s[i]
  {
    if i == 0 {
      p := PlaceIn(order, s[0]);
    } else {
      var q := NotEarlier(g, s, order, i - 1);
      ChainNodes(g, s);
      hide IsChain, Nodes;
      var a;
      a, p := EdgeForward(g, order, s[i - 1], s[i]);
    }
  }

  lemma {:induction false} NotLater(g: Graph, s: seq<Component>, order: seq<Component>, i: nat) returns (p: nat)
    requires IsChain(g, s) && ForwardOrder(g, order) && i < |s| && forall v :: v in s ==> v in order
    ensures p < |order| && |s| - i <= |order| - p && order[p] == s[i]
    decreases |s| - i
  {
    if i == |s| - 1 {
      p :| 0 <= p < |order| && order[p] == s[i];
    } else {
      var q := NotLater(g, s, order, i + 1);
      ChainNodes(g, s);
      assert Edge(g, s[i], s[i + 1]);
      var a, b :| 0 <= a < b < |order| && order[a] == s[i] && order[b] == s[i + 1];
      p := a;
    }
  }

  lemma SameLength(a: seq<Component>, b: seq<Component>)
    requires Distinct(a) && Distinct(b) && forall v :: v in a <==> v in b
    ensures |a| == |b|
  {
    MembersSize(a);
    MembersSize(b);
    assert Members(a) == Members(b);
  }

  lemma MembersSize(s: seq<Component>)
    requires Distinct(s)
    ensures |Members(s)| == |s|
  {
    ElemsSize(s);
    assert Members(s) == Elems(s);
  }

  lemma OncePresent(s: seq<Component>, i: nat, j: nat)
    requires Distinct(s) && i < |s| && j < |s| && s[i] == s[j]
    ensures i == j
  {
  }

  lemma OnlyPlace(g: Graph, s: seq<Component>, order: seq<Component>, i: nat)
    requires IsChain(g, s) && ForwardOrder(g, order) && Distinct(order) && |order| == |s| && i < |s|
    requires forall v :: v in s ==> v in order
    ensures order[i] == s[i]
  {
    hide IsChain, ForwardOrder, Distinct;
    var p := NotEarlier(g, s, order, i);
    var q := NotLater(g, s, order, i);
    OncePresent(order, p, q);
  }

  lemma OnlyOrder(g: Graph, s: seq<Component>, order: seq<Component>)
    requires IsChain(g, s) && ForwardOrder(g, order) && forall v :: v in s <==> v in order
    ensures order == s
  {
    ChainDistinct(g, s);
    ForwardIsDistinct(g, order);
    hide IsChain, ForwardOrder, Distinct;
    SameLength(s, order);
    forall i | 0 <= i < |s|
      ensures order[i] == s[i]
    {
      OnlyPlace(g, s, order, i);
    }
  }

  lemma ForwardIsDistinct(g: Graph, order: seq<Component>)
    requires ForwardOrder(g, order)
    ensures Distinct(order)
  {
  }

  /** The sort of a chain is the chain. */
  lemma ChainOrder(lister: Lister, g: Graph, s: seq<Component>)
    requires Lists(lister) && IsChain(g, s)
    ensures MakeWorkflow(lister, g).topologicalOrder == s && |MakeWorkflow(lister, g).nodes| == |s|
  {
    var nodes := lister(Nodes(g));
    assert IsEnumeration(nodes, Nodes(g));
    ChainNodes(g, s);
    ChainForward(g, s);
    ChainDistinct(g, s);
    hide TopologicalOrder, IsChain, Nodes, Acyclic, ForwardOrder;
    OrderFacts(g, nodes);
    SameLength(s, nodes);
    hide Distinct, Members;
    OnlyOrder(g, s, TopologicalOrder(g, nodes));
  }

  lemma ChainDistinct(g: Graph, s: seq<Component>)
    requires IsChain(g, s)
    ensures Distinct(s) && |s| > 0
  {
  }

  // ---------------------------------------------------------------- the cuts

  /** The only neighbour of a component stays unless it comes behind the part. */
  lemma PartNeighbors(g: Graph, s: seq<Component>, lo: nat, hi: nat, i: nat)
    requires IsChain(g, s) && lo < hi <= |s| && i < hi - lo
    ensures NeighborsIn(Neighbors(g, s[lo..hi][i]), Members(s[lo..hi])) == Following(s[lo..hi], i)
  {
    var part := s[lo..hi];
    assert part[i] == s[lo + i];
    OnlyNeighbor(g, s, lo + i);
    ChainDistinct(g, s);
    hide IsChain, Neighbors;
    if lo + i + 1 < |s| {
      OneNeighbor(s[lo + i + 1], Members(part));
      PartHasNext(s, lo, hi, i);
    }
  }

  lemma OnlyNeighbor(g: Graph, s: seq<Component>, i: nat)
    requires IsChain(g, s) && i < |s|
    ensures Neighbors(g, s[i]) == Following(s, i)
  {
    assert s[i] in g.Keys;
  }

  lemma PartHasNext(s: seq<Component>, lo: nat, hi: nat, i: nat)
    requires Distinct(s) && lo < hi <= |s| && i < hi - lo && lo + i + 1 < |s|
    ensures s[lo + i + 1] in Members(s[lo..hi]) <==> i + 1 < hi - lo
    ensures i + 1 < hi - lo ==> s[lo..hi][i + 1] == s[lo + i + 1]
  {
    if i + 1 < hi - lo {
      assert s[lo..hi][i + 1] == s[lo + i + 1];
    }
  }

  lemma PartDistinct(s: seq<Component>, lo: nat, hi: nat)
    requires Distinct(s) && lo < hi <= |s|
    ensures Distinct(s[lo..hi])
  {
  }

  lemma ChainPart(g: Graph, s: seq<Component>, lo: nat, hi: nat)
    requires IsChain(g, s) && lo < hi <= |s|
    ensures IsChain(Restrict(g, Members(s[lo..hi])), s[lo..hi])
  {
    var part := s[lo..hi];
    ChainDistinct(g, s);
    PartDistinct(s, lo, hi);
    hide IsChain, Distinct, Following, Neighbors, NeighborsIn;
    forall i | 0 <= i < |part|
      ensures NeighborsIn(Neighbors(g, part[i]), Members(part)) == Following(part, i)
    {
      PartNeighbors(g, s, lo, hi, i);
    }
    RestrictIsChain(g, part);
  }

  lemma RestrictIsChain(g: Graph, part: seq<Component>)
    requires |part| > 0 && Distinct(part)
    requires forall i :: 0 <= i < |part| ==> NeighborsIn(Neighbors(g, part[i]), Members(part)) == Following(part, i)
    ensures IsChain(Restrict(g, Members(part)), part)
  {
    hide Distinct, Following, Neighbors, NeighborsIn;
    assert forall i :: 0 <= i < |part| ==> part[i] in Members(part);
  }

  lemma OneNeighbor(v: Component, sub: set<Component>)
    ensures NeighborsIn([v], sub) == if v in sub then [v] else []
  {
    assert [v][1..] == [];
  }

  lemma {:induction false} AllPositions(w: Workflow, n: nat)
    requires n < |w.topologicalOrder| && forall i :: 0 <= i < n ==> CutHasEdge(w, i)
    ensures CutPositions(w, n) == seq(n, i => i)
  {
    hide CutHasEdge;
    if n > 0 {
      AllPositions(w, n - 1);
      assert CutHasEdge(w, n - 1);
    }
  }

  lemma ChainCutHasEdge(g: Graph, s: seq<Component>, i: nat)
    requires IsChain(g, s) && i + 1 < |s|
    ensures HasEdge(g, Members(s[..i + 1]), Members(s[i + 1..]))
  {
    ChainNodes(g, s);
    var u, v := s[i], s[i + 1];
    assert s[..i + 1][i] == u && s[i + 1..][0] == v;
    assert u in Members(s[..i + 1]) && v in Members(s[i + 1..]);
    assert v in Neighbors(g, u);
  }

  lemma ChainCutAt(lister: Lister, g: Graph, s: seq<Component>, k: nat)
    requires Lists(lister) && IsChain(g, s) && k + 1 < |s| && MakeWorkflow(lister, g).topologicalOrder == s
    ensures MakeWorkflow(lister, g).graph == g
    ensures var cut := CutAt(lister, MakeWorkflow(lister, g), k);
      IsChain(cut.source.graph, s[..k + 1]) && IsChain(cut.sink.graph, s[k + 1..])
  {
    hide MakeWorkflow, IsChain, Restrict, Members;
    WorkflowGraph(lister, g);
    assert s[0..k + 1] == s[..k + 1] && s[k + 1..|s|] == s[k + 1..];
    ChainPart(g, s, 0, k + 1);
    ChainPart(g, s, k + 1, |s|);
    WorkflowGraph(lister, Restrict(g, Members(s[..k + 1])));
    WorkflowGraph(lister, Restrict(g, Members(s[k + 1..])));
  }

  lemma ChainPositions(w: Workflow, s: seq<Component>)
    requires IsChain(w.graph, s) && w.topologicalOrder == s
    ensures CutPositions(w, |s| - 1) == seq(|s| - 1, i => i)
  {
    hide HasEdge, CutPositions;
    forall i | 0 <= i < |s| - 1
      ensures CutHasEdge(w, i)
    {
      ChainCutHasEdge(w.graph, s, i);
    }
    AllPositions(w, |s| - 1);
  }

  /** A chain is cut between any two neighbours, into two chains. */
  lemma ChainCuts(lister: Lister, g: Graph, s: seq<Component>)
    requires Lists(lister) && IsChain(g, s) && |s| > 1
    ensures var cuts := Cuts(lister, MakeWorkflow(lister, g));
      |cuts| == |s| - 1 && forall k :: 0 <= k < |cuts| ==>
        IsChain(cuts[k].source.graph, s[..k + 1]) && IsChain(cuts[k].sink.graph, s[k + 1..])
  {
    var w := MakeWorkflow(lister, g);
    ChainOrder(lister, g, s);
    WorkflowGraph(lister, g);
    ChainPositions(w, s);
    hide MakeWorkflow, IsChain, CutAt, CutPositions;
    var cuts := Cuts(lister, w);
    forall k | 0 <= k < |cuts|
      ensures IsChain(cuts[k].source.graph, s[..k + 1]) && IsChain(cuts[k].sink.graph, s[k + 1..])
    {
      assert cuts[k] == CutAt(lister, w, k);
      ChainCutAt(lister, g, s, k);
    }
  }

  // ---------------------------------------------------------------- the search

  /** Whatever the search meets on a chain: one component, or cuts into shorter chains. */
  lemma ChainSearch(e: Setup, g: Graph, s: seq<Component>, gpuNum: nat)
    requires Lists(e.lister) && IsChain(g, s)
    ensures |s| == 1 ==> Schedule(e, g, gpuNum) == LeafSchedule(e, s[0], gpuNum)
    ensures |s| > 1 ==>
      var cuts := Cuts(e.lister, MakeWorkflow(e.lister, g));
      && CutsBelow(e, Nodes(g), cuts) && |cuts| == |s| - 1
      && Schedule(e, g, gpuNum) == OverCuts(e, Nodes(g), cuts, 0, gpuNum, None)
      && forall k :: 0 <= k < |cuts| ==>
        IsChain(cuts[k].source.graph, s[..k + 1]) && IsChain(cuts[k].sink.graph, s[k + 1..])
  {
    ChainDistinct(g, s);
    hide Cuts, CutsBelow, OverCuts, LeafSchedule, IsChain;
    ChainOrder(e.lister, g, s);
    CutsAreBelow(e, g);
    if |s| > 1 {
      ChainCuts(e.lister, g, s);
    } else {
      OnlyNode(e.lister, g, s);
    }
  }

  lemma OnlyNode(lister: Lister, g: Graph, s: seq<Component>)
    requires Lists(lister) && IsChain(g, s) && |s| == 1
    ensures |MakeWorkflow(lister, g).nodes| == 1 && MakeWorkflow(lister, g).nodes[0] == s[0]
  {
    ChainOrder(lister, g, s);
    ChainNodes(g, s);
    var nodes := lister(Nodes(g));
    assert IsEnumeration(nodes, Nodes(g));
    assert nodes[0] in nodes;
  }
}
