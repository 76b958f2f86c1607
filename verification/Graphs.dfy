/** Workflow graphs: adjacency dictionaries over components, paths, reachability and cycles. */
module Graphs {

  /** A component of a workflow, or the node that stands for a whole strongly connected component. */
  datatype Component = Plain(role: string) | Scc(members: seq<Component>)

  /** The adjacency dictionary.  A node may occur as a neighbour without being a key. */
  type Graph = map<Component, seq<Component>>

  function Neighbors(g: Graph, v: Component): seq<Component> {
    if v in g then g[v] else []
  }

  predicate Edge(g: Graph, u: Component, v: Component) {
    v in Neighbors(g, u)
  }

  /** The keys together with all their neighbours. */
  function Nodes(g: Graph): (ns: set<Component>)
    ensures forall u, v :: Edge(g, u, v) ==> u in ns && v in ns
  {
    g.Keys + set u, v | u in g.Keys && v in g[u] :: v
  }

  ghost predicate IsPath(g: Graph, p: seq<Component>, x: Component, y: Component) {
    && |p| > 0 && p[0] == x && p[|p| - 1] == y
    && forall i :: 0 <= i < |p| - 1 ==> Edge(g, p[i], p[i + 1])
  }

  ghost predicate Reach(g: Graph, x: Component, y: Component) {
    exists p :: IsPath(g, p, x, y)
  }

  ghost predicate Mutual(g: Graph, x: Component, y: Component) {
    Reach(g, x, y) && Reach(g, y, x)
  }

  /** No edge lies on a cycle; a self-loop is a cycle. */
  ghost predicate Acyclic(g: Graph) {
    forall x, y :: Edge(g, x, y) ==> !Reach(g, y, x)
  }

  predicate Distinct<T(==)>(s: seq<T>) {
    forall i, j :: 0 <= i < j < |s| ==> s[i] != s[j]
  }

  /** Where `v` is in the list. */
  lemma PlaceIn<T>(s: seq<T>, v: T) returns (i: nat)
    requires v in s
    ensures i < |s| && s[i] == v
  {
    i :| 0 <= i < |s| && s[i] == v;
  }

  /** A list of the members of `ns`, each once: what `list(node_set)` may return. */
  ghost predicate IsEnumeration(s: seq<Component>, ns: set<Component>) {
    Distinct(s) && forall v :: v in s <==> v in ns
  }

  lemma ReachRefl(g: Graph, x: Component)
    ensures Reach(g, x, x)
  {
    assert IsPath(g, [x], x, x);
  }

  lemma ReachEdge(g: Graph, x: Component, y: Component)
    requires Edge(g, x, y)
    ensures Reach(g, x, y)
  {
    assert IsPath(g, [x, y], x, y);
  }

  lemma ReachTrans(g: Graph, x: Component, y: Component, z: Component)
    requires Reach(g, x, y) && Reach(g, y, z)
    ensures Reach(g, x, z)
  {
    var p :| IsPath(g, p, x, y);
    var q :| IsPath(g, q, y, z);
    var r := p + q[1..];
    forall i | 0 <= i < |r| - 1
      ensures Edge(g, r[i], r[i + 1])
    {
      if i >= |p| - 1 {
        assert r[i] == q[i - (|p| - 1)];
        assert r[i + 1] == q[i + 1 - (|p| - 1)];
      }
    }
    assert IsPath(g, r, x, z);
  }

  ghost predicate Closed(g: Graph, s: set<Component>) {
    forall u, v :: u in s && Edge(g, u, v) ==> v in s
  }

  /** What is closed under edges is closed under reachability. */
  lemma ReachStaysIn(g: Graph, s: set<Component>, x: Component, y: Component)
    requires Closed(g, s) && x in s && Reach(g, x, y)
    ensures y in s
  {
    var p :| IsPath(g, p, x, y);
    var i := 0;
    while i < |p| - 1
      invariant 0 <= i < |p| && p[i] in s
    {
      assert Edge(g, p[i], p[i + 1]);
      i := i + 1;
    }
  }

  /** `order` lists every end of every edge, the source of the edge first. */
  ghost predicate ForwardOrder(g: Graph, order: seq<Component>) {
    && Distinct(order)
    && forall u, v :: Edge(g, u, v) ==> exists i, j :: 0 <= i < j < |order| && order[i] == u && order[j] == v
  }

  lemma ForwardOrderIsAcyclic(g: Graph, order: seq<Component>)
    requires ForwardOrder(g, order)
    ensures Acyclic(g)
  {
    forall x, y | Edge(g, x, y)
      ensures !Reach(g, y, x)
    {
      var i, j :| 0 <= i < j < |order| && order[i] == x && order[j] == y;
      var later := set k | j <= k < |order| :: order[k];
      if Reach(g, y, x) {
        ReachStaysIn(g, later, y, x);
      }
    }
  }

  ghost function Elems(s: seq<Component>): set<Component> {
    set i | 0 <= i < |s| :: s[i]
  }

  function Reversed(s: seq<Component>): (r: seq<Component>)
    ensures |r| == |s| && forall i :: 0 <= i < |s| ==> r[i] == s[|s| - 1 - i]
  {
    seq(|s|, i requires 0 <= i < |s| => s[|s| - 1 - i])
  }

  lemma ElemsSplit(a: seq<Component>, b: seq<Component>)
    ensures Elems(a + b) == Elems(a) + Elems(b)
  {
    assert forall i :: 0 <= i < |a| ==> (a + b)[i] == a[i];
    assert forall i :: 0 <= i < |b| ==> (a + b)[|a| + i] == b[i];
  }

  lemma ElemsSingle(v: Component)
    ensures Elems([v]) == {v}
  {
    assert [v][0] == v;
  }

  lemma {:induction false} ElemsSize(s: seq<Component>)
    requires Distinct(s)
    ensures |Elems(s)| == |s|
  {
    if s != [] {
      var init, last := s[..|s| - 1], s[|s| - 1];
      ElemsSize(init);
      assert s == init + [last];
      ElemsSplit(init, [last]);
      ElemsSingle(last);
      assert last !in Elems(init);
      hide Elems, Distinct;
    }
  }

  /** A list without repetition is no longer than a set that holds all its members. */
  lemma DistinctWithin(s: seq<Component>, ns: set<Component>)
    requires Distinct(s) && forall i :: 0 <= i < |s| ==> s[i] in ns
    ensures |s| <= |ns|
  {
    ElemsSize(s);
    SubsetSize(Elems(s), ns);
  }

  lemma SubsetSize(a: set<Component>, b: set<Component>)
    requires a <= b
    ensures |a| <= |b|
  {
    assert b == a + (b - a);
  }
}
