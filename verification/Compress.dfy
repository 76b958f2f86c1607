/** `Workflow.compress_sccs`: contraction of the strongly connected components. */
module Compress {
  import opened Graphs
  import opened Tarjan
  import opened Wrappers

  /** The node that stands for a component: its only member, or an `SccNode` over its members. */
  function RepOf(scc: seq<Component>): Component
    requires |scc| > 0
  {
    if |scc| == 1 then scc[0] else Scc(scc)
  }

  /** The nodes of all components. */
  ghost function Reps(sccs: seq<seq<Component>>): set<Component>
    requires forall i :: 0 <= i < |sccs| ==> |sccs[i]| > 0
  {
    set i | 0 <= i < |sccs| :: RepOf(sccs[i])
  }

  ghost predicate LinkedSccs(g: Graph, a: seq<Component>, b: seq<Component>) {
    exists u, v :: u in a && v in b && Edge(g, u, v)
  }

  ghost predicate PlainNodes(g: Graph) {
    forall v :: v in Nodes(g) ==> v.Plain?
  }

  /**
   * `c` has one node per component, no two for one, and an edge between two of them iff `g` has one between their
   * members.
   */
  ghost predicate IsCondensation(g: Graph, sccs: seq<seq<Component>>, c: Graph)
    requires forall i :: 0 <= i < |sccs| ==> |sccs[i]| > 0
  {
    && c.Keys == Reps(sccs) && |c.Keys| == |sccs|
    && (forall i :: 0 <= i < |sccs| ==> Distinct(c[RepOf(sccs[i])]))
    && (forall i, r :: 0 <= i < |sccs| && r in c[RepOf(sccs[i])] ==> r in c.Keys)
    && (forall i, j :: 0 <= i < |sccs| && 0 <= j < |sccs| ==>
      (RepOf(sccs[j]) in c[RepOf(sccs[i])] <==> i != j && LinkedSccs(g, sccs[i], sccs[j])))
  }

  /** `cls` maps every node to the position of its component. */
  ghost predicate Indexes(g: Graph, sccs: seq<seq<Component>>, cls: map<Component, nat>) {
    && cls.Keys == Nodes(g)
    && (forall i :: 0 <= i < |sccs| ==> |sccs[i]| > 0)
    && (forall v :: v in cls ==> cls[v] < |sccs| && v in sccs[cls[v]])
    && (forall i, k :: 0 <= i < |sccs| && 0 <= k < |sccs[i]| ==> sccs[i][k] in cls && cls[sccs[i][k]] == i)
  }

  /** No edge leads to a component emitted later: what the lookup of existing nodes rests on. */
  ghost predicate Backward(g: Graph, cls: map<Component, nat>)
    requires cls.Keys == Nodes(g)
  {
    forall u, v :: Edge(g, u, v) ==> cls[v] <= cls[u]
  }

  ghost predicate RepsInjective(sccs: seq<seq<Component>>)
    requires forall i :: 0 <= i < |sccs| ==> |sccs[i]| > 0
  {
    forall i, j :: 0 <= i < j < |sccs| ==> RepOf(sccs[i]) != RepOf(sccs[j])
  }

  lemma IndexedIsBackward(g: Graph, sccs: seq<seq<Component>>, cls: map<Component, nat>)
    requires SccsOk(g, sccs) && Indexes(g, sccs, cls)
    ensures Backward(g, cls)
  {
    forall u, v | Edge(g, u, v)
      ensures cls[v] <= cls[u]
    {
      assert v in Done(sccs[..cls[u] + 1]);
      var k :| 0 <= k < cls[u] + 1 && v in sccs[k];
      var m :| 0 <= m < |sccs[k]| && sccs[k][m] == v;
    }
  }

  /** Different components have different nodes, as long as no `SccNode` is in the graph already. */
  lemma IndexedRepsInjective(g: Graph, sccs: seq<seq<Component>>, cls: map<Component, nat>)
    requires Indexes(g, sccs, cls) && PlainNodes(g)
    ensures RepsInjective(sccs)
  {
    forall i, j | 0 <= i < j < |sccs|
      ensures RepOf(sccs[i]) != RepOf(sccs[j])
    {
      assert cls[sccs[i][0]] == i && cls[sccs[j][0]] == j;
    }
  }

  /** Different components have different nodes exactly if there are as many nodes as components. */
  lemma {:induction false} RepsCount(sccs: seq<seq<Component>>)
    requires forall i :: 0 <= i < |sccs| ==> |sccs[i]| > 0
    ensures |Reps(sccs)| <= |sccs|
    ensures |Reps(sccs)| == |sccs| <==> RepsInjective(sccs)
  {
    if sccs != [] {
      var n := |sccs| - 1;
      var init := sccs[..n];
      RepsCount(init);
      RepsSnoc(sccs);
      hide Reps, RepsInjective, RepOf;
    }
  }

  lemma RepsSnoc(sccs: seq<seq<Component>>)
    requires sccs != [] && forall i :: 0 <= i < |sccs| ==> |sccs[i]| > 0
    ensures var n := |sccs| - 1;
      && Reps(sccs) == Reps(sccs[..n]) + {RepOf(sccs[n])}
      && (RepsInjective(sccs) <==> RepsInjective(sccs[..n]) && RepOf(sccs[n]) !in Reps(sccs[..n]))
  {
    hide RepOf;
  }

  lemma CondensationIsInjective(g: Graph, sccs: seq<seq<Component>>, c: Graph)
    requires forall i :: 0 <= i < |sccs| ==> |sccs[i]| > 0
    requires IsCondensation(g, sccs, c)
    ensures RepsInjective(sccs)
  {
    RepsCount(sccs);
  }

  /** `node_to_scc`. */
  method IndexNodes(g: Graph, sccs: seq<seq<Component>>) returns (nodeToScc: map<Component, nat>)
    requires IsSccDecomposition(g, sccs)
    ensures Indexes(g, sccs, nodeToScc)
  {
    hide SccsOk;
    nodeToScc := map[];
    for i := 0 to |sccs|
      invariant nodeToScc.Keys <= Nodes(g)
      invariant forall j, v :: 0 <= j < i && v in sccs[j] ==> v in nodeToScc
      invariant forall v :: v in nodeToScc ==> nodeToScc[v] < i && v in sccs[nodeToScc[v]]
    {
      for k := 0 to |sccs[i]|
        invariant nodeToScc.Keys <= Nodes(g)
        invariant forall j, v :: 0 <= j < i && v in sccs[j] ==> v in nodeToScc
        invariant forall v :: v in sccs[i][..k] ==> v in nodeToScc
        invariant forall v :: v in nodeToScc ==> nodeToScc[v] <= i && v in sccs[nodeToScc[v]]
      {
        assert sccs[i][k] in sccs[i];
        assert sccs[i][k] in Done(sccs);
        nodeToScc := nodeToScc[sccs[i][k] := i];
      }
      assert sccs[i][..|sccs[i]|] == sccs[i];
    }
    IndexedAll(g, sccs, nodeToScc);
  }

  lemma IndexedAll(g: Graph, sccs: seq<seq<Component>>, cls: map<Component, nat>)
    requires IsSccDecomposition(g, sccs) && cls.Keys <= Nodes(g)
    requires forall j, v :: 0 <= j < |sccs| && v in sccs[j] ==> v in cls
    requires forall v :: v in cls ==> cls[v] < |sccs| && v in sccs[cls[v]]
    ensures Indexes(g, sccs, cls)
  {
    forall i, k | 0 <= i < |sccs| && 0 <= k < |sccs[i]|
      ensures sccs[i][k] in cls && cls[sccs[i][k]] == i
    {
      assert sccs[i][k] in sccs[i];
    }
    forall v | v in Nodes(g)
      ensures v in cls
    {
      assert v in Done(sccs);
    }
  }

  /** The search for the compressed node of `scc` among the keys inserted so far. */
  method FindExisting(keys: seq<Component>, scc: seq<Component>) returns (target: Option<Component>)
    requires |scc| > 0
    ensures target == if RepOf(scc) in keys then Some(RepOf(scc)) else None
  {
    target := None;
    for k := 0 to |keys|
      invariant target == None && RepOf(scc) !in keys[..k]
    {
      if |scc| == 1 {
        if keys[k] == scc[0] {
          return Some(keys[k]);
        }
      } else if keys[k].Scc? && keys[k].members == scc {
        return Some(keys[k]);
      }
    }
  }

  /** The compressed nodes that edges ending in `seen` lead to from component `i`. */
  ghost function TargetSet(sccs: seq<seq<Component>>, cls: map<Component, nat>, i: nat,
      seen: set<Component>): set<Component> {
    set v | v in seen && v in cls && cls[v] != i && cls[v] < |sccs| && |sccs[cls[v]]| > 0 :: RepOf(sccs[cls[v]])
  }

  lemma TargetSetSplit(sccs: seq<seq<Component>>, cls: map<Component, nat>, i: nat, a: set<Component>,
      b: set<Component>)
    ensures TargetSet(sccs, cls, i, a + b) == TargetSet(sccs, cls, i, a) + TargetSet(sccs, cls, i, b)
  {
  }

  /** Where the edges out of `scc` end. */
  ghost function OutEnds(g: Graph, scc: seq<Component>): set<Component> {
    set k, m | 0 <= k < |scc| && 0 <= m < |Neighbors(g, scc[k])| :: Neighbors(g, scc[k])[m]
  }

  lemma OutEndsSplit(g: Graph, scc: seq<Component>, k: nat)
    requires k < |scc|
    ensures OutEnds(g, scc[..k + 1]) == OutEnds(g, scc[..k]) + Elems(Neighbors(g, scc[k]))
  {
  }

  lemma TargetSetSingle(sccs: seq<seq<Component>>, cls: map<Component, nat>, i: nat, v: Component)
    requires v in cls && cls[v] < |sccs| && |sccs[cls[v]]| > 0
    ensures TargetSet(sccs, cls, i, {v}) == if cls[v] != i then {RepOf(sccs[cls[v]])} else {}
  {
  }

  /** Appends the compressed node of `neighbor` unless it is in component `i` or listed already. */
  method AddTarget(sccs: seq<seq<Component>>, nodeToScc: map<Component, nat>, i: nat, keys: seq<Component>,
      neighbor: Component, targets: seq<Component>)
    returns (r: seq<Component>)
    requires forall j :: 0 <= j < |sccs| ==> |sccs[j]| > 0
    requires i < |sccs| && forall j :: 0 <= j <= i ==> RepOf(sccs[j]) in keys
    requires neighbor in nodeToScc && nodeToScc[neighbor] <= i
    requires Distinct(targets)
    ensures Distinct(r)
    ensures Elems(r) == Elems(targets) + TargetSet(sccs, nodeToScc, i, {neighbor})
  {
    r := targets;
    var neighborScc := nodeToScc[neighbor];
    TargetSetSingle(sccs, nodeToScc, i, neighbor);
    if neighborScc != i {
      var target := FindExisting(keys, sccs[neighborScc]);
      if target.Some? && target.value !in targets {
        r := targets + [target.value];
        ElemsSplit(targets, [target.value]);
        ElemsSingle(target.value);
      }
    }
  }

  /** The loop over the neighbours of one node. */
  method CollectFrom(sccs: seq<seq<Component>>, nodeToScc: map<Component, nat>, i: nat, keys: seq<Component>,
      neighbors: seq<Component>, ghost before: set<Component>, collected: seq<Component>)
    returns (targets: seq<Component>)
    requires forall j :: 0 <= j < |sccs| ==> |sccs[j]| > 0
    requires i < |sccs| && forall j :: 0 <= j <= i ==> RepOf(sccs[j]) in keys
    requires forall v :: v in neighbors ==> v in nodeToScc && nodeToScc[v] <= i
    requires Distinct(collected) && Elems(collected) == TargetSet(sccs, nodeToScc, i, before)
    ensures Distinct(targets)
    ensures Elems(targets) == TargetSet(sccs, nodeToScc, i, before + Elems(neighbors))
  {
    targets := collected;
    assert before + Elems(neighbors[..0]) == before;
    hide RepOf, TargetSet, Distinct;
    for m := 0 to |neighbors|
      invariant Distinct(targets)
      invariant Elems(targets) == TargetSet(sccs, nodeToScc, i, before + Elems(neighbors[..m]))
    {
      targets := AddTarget(sccs, nodeToScc, i, keys, neighbors[m], targets);
      SeenStep(sccs, nodeToScc, i, before, neighbors, m);
    }
    assert neighbors[..|neighbors|] == neighbors;
  }

  /** The two inner loops for component `i`; `keys` holds the nodes of components `0..i`. */
  method CollectTargets(g: Graph, sccs: seq<seq<Component>>, nodeToScc: map<Component, nat>, i: nat,
      keys: seq<Component>)
    returns (targets: seq<Component>)
    requires forall j :: 0 <= j < |sccs| ==> |sccs[j]| > 0
    requires i < |sccs| && forall j :: 0 <= j <= i ==> RepOf(sccs[j]) in keys
    requires forall k, v :: 0 <= k < |sccs[i]| && Edge(g, sccs[i][k], v) ==> v in nodeToScc && nodeToScc[v] <= i
    ensures Distinct(targets)
    ensures Elems(targets) == TargetSet(sccs, nodeToScc, i, OutEnds(g, sccs[i]))
  {
    targets := [];
    var scc := sccs[i];
    for k := 0 to |scc|
      invariant Distinct(targets)
      invariant Elems(targets) == TargetSet(sccs, nodeToScc, i, OutEnds(g, scc[..k]))
    {
      assert forall v :: v in Neighbors(g, scc[k]) ==> Edge(g, scc[k], v);
      targets := CollectFrom(sccs, nodeToScc, i, keys, Neighbors(g, scc[k]), OutEnds(g, scc[..k]), targets);
      OutEndsSplit(g, scc, k);
    }
    assert scc[..|scc|] == scc;
  }

  lemma SeenStep(sccs: seq<seq<Component>>, cls: map<Component, nat>, i: nat, before: set<Component>,
      neighbors: seq<Component>, m: nat)
    requires m < |neighbors|
    ensures TargetSet(sccs, cls, i, before + Elems(neighbors[..m + 1]))
         == TargetSet(sccs, cls, i, before + Elems(neighbors[..m])) + TargetSet(sccs, cls, i, {neighbors[m]})
  {
    assert neighbors[..m + 1] == neighbors[..m] + [neighbors[m]];
    ElemsSplit(neighbors[..m], [neighbors[m]]);
    ElemsSingle(neighbors[m]);
    TargetSetSplit(sccs, cls, i, before + Elems(neighbors[..m]), {neighbors[m]});
    assert before + Elems(neighbors[..m + 1]) == before + Elems(neighbors[..m]) + {neighbors[m]};
  }

  /** A compressed node's targets are the components its members have edges into. */
  lemma TargetsAreLinked(g: Graph, sccs: seq<seq<Component>>, cls: map<Component, nat>, i: nat, j: nat)
    requires Indexes(g, sccs, cls) && RepsInjective(sccs)
    requires i < |sccs| && j < |sccs|
    ensures RepOf(sccs[j]) in TargetSet(sccs, cls, i, OutEnds(g, sccs[i])) <==>
      i != j && LinkedSccs(g, sccs[i], sccs[j])
  {
    if RepOf(sccs[j]) in TargetSet(sccs, cls, i, OutEnds(g, sccs[i])) {
      var v :| v in OutEnds(g, sccs[i]) && v in cls && cls[v] != i && RepOf(sccs[cls[v]]) == RepOf(sccs[j]);
      var k, m :| 0 <= k < |sccs[i]| && 0 <= m < |Neighbors(g, sccs[i][k])| && Neighbors(g, sccs[i][k])[m] == v;
      assert Edge(g, sccs[i][k], v) && cls[v] == j;
    }
    if i != j && LinkedSccs(g, sccs[i], sccs[j]) {
      var u, v :| u in sccs[i] && v in sccs[j] && Edge(g, u, v);
      var k :| 0 <= k < |sccs[i]| && sccs[i][k] == u;
      var n :| 0 <= n < |sccs[j]| && sccs[j][n] == v;
      var m :| 0 <= m < |Neighbors(g, u)| && Neighbors(g, u)[m] == v;
      assert v in OutEnds(g, sccs[i]);
      assert cls[v] == j;
    }
  }

  /**
   * `Workflow.compress_sccs` up to the construction of the new workflow: the result is the condensation if and only if
   * no two components get the same node, and so for every workflow without `SccNode`s.
   */
  method CompressSccs(g: Graph, nodes: seq<Component>) returns (compressed: Graph)
    requires IsEnumeration(nodes, Nodes(g))
    ensures exists sccs :: IsSccDecomposition(g, sccs) && CondensesIff(g, sccs, compressed)
  {
    var sccs := FindSccs(g, nodes);
    var nodeToScc := IndexNodes(g, sccs);
    IndexedIsBackward(g, sccs, nodeToScc);
    compressed := LinkSccs(g, sccs, nodeToScc);
    if PlainNodes(g) {
      IndexedRepsInjective(g, sccs, nodeToScc);
    }
  }

  ghost predicate CondensesIff(g: Graph, sccs: seq<seq<Component>>, c: Graph)
    requires forall i :: 0 <= i < |sccs| ==> |sccs[i]| > 0
  {
    (IsCondensation(g, sccs, c) <==> RepsInjective(sccs)) && (PlainNodes(g) ==> RepsInjective(sccs))
  }

  /** What the loop has built after the first `n` components. */
  ghost predicate LinkedUpTo(g: Graph, sccs: seq<seq<Component>>, cls: map<Component, nat>, c: Graph, n: nat)
    requires n <= |sccs| && forall i :: 0 <= i < |sccs| ==> |sccs[i]| > 0
  {
    && c.Keys == Reps(sccs[..n])
    && (RepsInjective(sccs) ==> forall j :: 0 <= j < n ==> HasTargets(g, sccs, cls, c, j))
  }

  ghost predicate HasTargets(g: Graph, sccs: seq<seq<Component>>, cls: map<Component, nat>, c: Graph, j: nat)
    requires j < |sccs| && |sccs[j]| > 0
  {
    && RepOf(sccs[j]) in c && Distinct(c[RepOf(sccs[j])])
    && Elems(c[RepOf(sccs[j])]) == TargetSet(sccs, cls, j, OutEnds(g, sccs[j]))
  }

  lemma TargetsKept(g: Graph, sccs: seq<seq<Component>>, cls: map<Component, nat>, c: Graph, i: nat,
      targets: seq<Component>, j: nat)
    requires i < |sccs| && (forall i :: 0 <= i < |sccs| ==> |sccs[i]| > 0) && RepsInjective(sccs) && j <= i
    requires Distinct(targets) && Elems(targets) == TargetSet(sccs, cls, i, OutEnds(g, sccs[i]))
    requires j < i ==> HasTargets(g, sccs, cls, c, j)
    ensures HasTargets(g, sccs, cls, c[RepOf(sccs[i]) := targets], j)
  {
    hide RepOf, TargetSet, OutEnds, Elems, Distinct;
    assert j < i ==> RepOf(sccs[j]) != RepOf(sccs[i]);
  }

  lemma LinkStep(g: Graph, sccs: seq<seq<Component>>, cls: map<Component, nat>, c: Graph, i: nat,
      targets: seq<Component>)
    requires i < |sccs| && (forall i :: 0 <= i < |sccs| ==> |sccs[i]| > 0) && LinkedUpTo(g, sccs, cls, c, i)
    requires Distinct(targets) && Elems(targets) == TargetSet(sccs, cls, i, OutEnds(g, sccs[i]))
    ensures LinkedUpTo(g, sccs, cls, c[RepOf(sccs[i]) := targets], i + 1)
  {
    hide RepOf, TargetSet, OutEnds, Elems, Distinct;
    var prefix := sccs[..i + 1];
    assert prefix[..i] == sccs[..i];
    RepsSnoc(prefix);
    hide Reps;
    var c' := c[RepOf(sccs[i]) := targets];
    if RepsInjective(sccs) {
      forall j | 0 <= j < i + 1
        ensures HasTargets(g, sccs, cls, c', j)
      {
        TargetsKept(g, sccs, cls, c, i, targets, j);
      }
    }
  }

  lemma OutEdgesIndexed(g: Graph, sccs: seq<seq<Component>>, cls: map<Component, nat>, i: nat)
    requires Indexes(g, sccs, cls) && Backward(g, cls) && i < |sccs|
    ensures forall k, v :: 0 <= k < |sccs[i]| && Edge(g, sccs[i][k], v) ==> v in cls && cls[v] <= i
  {
  }

  lemma NothingLinked(g: Graph, sccs: seq<seq<Component>>, cls: map<Component, nat>)
    requires Indexes(g, sccs, cls)
    ensures forall i :: 0 <= i < |sccs| ==> |sccs[i]| > 0
    ensures LinkedUpTo(g, sccs, cls, map[], 0)
  {
  }

  /** The loop over the components that creates the compressed nodes and their edges. */
  method LinkSccs(g: Graph, sccs: seq<seq<Component>>, nodeToScc: map<Component, nat>) returns (compressed: Graph)
    requires Indexes(g, sccs, nodeToScc) && Backward(g, nodeToScc)
    ensures forall i :: 0 <= i < |sccs| ==> |sccs[i]| > 0
    ensures IsCondensation(g, sccs, compressed) <==> RepsInjective(sccs)
  {
    hide *;
    NothingLinked(g, sccs, nodeToScc);
    compressed := map[];
    var keys: seq<Component> := [];
    for i := 0 to |sccs|
      invariant |keys| == i && forall j :: 0 <= j < i ==> keys[j] == RepOf(sccs[j])
      invariant LinkedUpTo(g, sccs, nodeToScc, compressed, i)
    {
      var compressedNode := RepOf(sccs[i]);
      keys := keys + [compressedNode];
      OutEdgesIndexed(g, sccs, nodeToScc, i);
      var targets := CollectTargets(g, sccs, nodeToScc, i, keys);
      LinkStep(g, sccs, nodeToScc, compressed, i, targets);
      compressed := compressed[compressedNode := targets];
    }
    LinkedIsCondensation(g, sccs, nodeToScc, compressed);
  }

  lemma LinkedIsCondensation(g: Graph, sccs: seq<seq<Component>>, cls: map<Component, nat>, c: Graph)
    requires Indexes(g, sccs, cls) && LinkedUpTo(g, sccs, cls, c, |sccs|)
    ensures IsCondensation(g, sccs, c) <==> RepsInjective(sccs)
  {
    assert sccs[..|sccs|] == sccs;
    RepsCount(sccs);
    if RepsInjective(sccs) {
      CondensationFromTargets(g, sccs, cls, c);
    }
  }

  lemma TargetIsRep(g: Graph, sccs: seq<seq<Component>>, cls: map<Component, nat>, c: Graph, i: nat, r: Component)
    requires i < |sccs| && (forall i :: 0 <= i < |sccs| ==> |sccs[i]| > 0) && HasTargets(g, sccs, cls, c, i)
    requires r in c[RepOf(sccs[i])]
    ensures r in Reps(sccs)
  {
    assert r in Elems(c[RepOf(sccs[i])]);
  }

  /** The targets of one component are exactly the components it is linked to. */
  ghost predicate LinkedOut(g: Graph, sccs: seq<seq<Component>>, c: Graph, i: nat)
    requires i < |sccs| && forall j :: 0 <= j < |sccs| ==> |sccs[j]| > 0
  {
    && RepOf(sccs[i]) in c && Distinct(c[RepOf(sccs[i])])
    && (forall r :: r in c[RepOf(sccs[i])] ==> r in c.Keys)
    && (forall j :: 0 <= j < |sccs| ==>
      (RepOf(sccs[j]) in c[RepOf(sccs[i])] <==> i != j && LinkedSccs(g, sccs[i], sccs[j])))
  }

  lemma TargetsMean(g: Graph, sccs: seq<seq<Component>>, cls: map<Component, nat>, c: Graph, i: nat)
    requires Indexes(g, sccs, cls) && RepsInjective(sccs)
    requires i < |sccs| && (forall j :: 0 <= j < |sccs| ==> |sccs[j]| > 0)
    requires c.Keys == Reps(sccs) && HasTargets(g, sccs, cls, c, i)
    ensures LinkedOut(g, sccs, c, i)
  {
    hide Reps, RepOf, TargetSet, OutEnds, Indexes, RepsInjective, LinkedSccs, Distinct;
    forall r | r in c[RepOf(sccs[i])]
      ensures r in c.Keys
    {
      TargetIsRep(g, sccs, cls, c, i, r);
    }
    forall j | 0 <= j < |sccs|
      ensures RepOf(sccs[j]) in c[RepOf(sccs[i])] <==> i != j && LinkedSccs(g, sccs[i], sccs[j])
    {
      TargetsAreLinked(g, sccs, cls, i, j);
      assert RepOf(sccs[j]) in c[RepOf(sccs[i])] <==> RepOf(sccs[j]) in Elems(c[RepOf(sccs[i])]);
    }
  }

  lemma IndexedNonEmpty(g: Graph, sccs: seq<seq<Component>>, cls: map<Component, nat>)
    requires Indexes(g, sccs, cls)
    ensures forall i :: 0 <= i < |sccs| ==> |sccs[i]| > 0
  {
  }

  lemma CondensationFromTargets(g: Graph, sccs: seq<seq<Component>>, cls: map<Component, nat>, c: Graph)
    requires Indexes(g, sccs, cls) && RepsInjective(sccs)
    requires c.Keys == Reps(sccs) && forall j :: 0 <= j < |sccs| ==> HasTargets(g, sccs, cls, c, j)
    ensures IsCondensation(g, sccs, c)
  {
    RepsCount(sccs);
    IndexedNonEmpty(g, sccs, cls);
    hide Reps, RepOf, Indexes, RepsInjective, LinkedSccs, HasTargets, LinkedOut, Distinct;
    forall i | 0 <= i < |sccs|
      ensures LinkedOut(g, sccs, c, i)
    {
      TargetsMean(g, sccs, cls, c, i);
    }
    AllLinkedOut(g, sccs, c);
  }

  lemma AllLinkedOut(g: Graph, sccs: seq<seq<Component>>, c: Graph)
    requires forall i :: 0 <= i < |sccs| ==> |sccs[i]| > 0
    requires c.Keys == Reps(sccs) && |c.Keys| == |sccs| && forall i :: 0 <= i < |sccs| ==> LinkedOut(g, sccs, c, i)
    ensures IsCondensation(g, sccs, c)
  {
    hide Reps, RepOf, LinkedSccs, Distinct;
    forall i | 0 <= i < |sccs|
      ensures RepOf(sccs[i]) in c && Distinct(c[RepOf(sccs[i])])
      ensures forall r :: r in c[RepOf(sccs[i])] ==> r in c.Keys
      ensures forall j :: 0 <= j < |sccs| ==>
        (RepOf(sccs[j]) in c[RepOf(sccs[i])] <==> i != j && LinkedSccs(g, sccs[i], sccs[j]))
    {
      assert LinkedOut(g, sccs, c, i);
    }
  }

  /** The positions of a decomposition's nodes, with what the proofs below need about them. */
  lemma IndexOf(g: Graph, sccs: seq<seq<Component>>) returns (cls: map<Component, nat>)
    requires IsSccDecomposition(g, sccs)
    ensures Indexes(g, sccs, cls) && Backward(g, cls)
    ensures forall u, v :: u in cls && v in cls && cls[u] == cls[v] ==> Reach(g, u, v)
  {
    cls := map v | v in Nodes(g) :: PositionOf(sccs, v);
    forall i, k | 0 <= i < |sccs| && 0 <= k < |sccs[i]|
      ensures sccs[i][k] in cls && cls[sccs[i][k]] == i
    {
      assert sccs[i][k] in sccs[i];
      assert sccs[i][k] in Done(sccs);
    }
    forall u, v | u in cls && v in cls && cls[u] == cls[v]
      ensures Reach(g, u, v)
    {
      assert Mutual(g, u, v);
    }
    IndexedIsBackward(g, sccs, cls);
  }

  ghost function PositionOf(sccs: seq<seq<Component>>, v: Component): (i: nat)
    requires v in Done(sccs)
    ensures i < |sccs| && v in sccs[i]
  {
    var i :| 0 <= i < |sccs| && v in sccs[i];
    i
  }

  lemma RepPosition(sccs: seq<seq<Component>>, reps: set<Component>, a: Component) returns (i: nat)
    requires forall i :: 0 <= i < |sccs| ==> |sccs[i]| > 0
    requires reps == Reps(sccs)
    requires a in reps
    ensures i < |sccs| && RepOf(sccs[i]) == a
  {
    i :| 0 <= i < |sccs| && RepOf(sccs[i]) == a;
  }

  lemma CompressedEdge(g: Graph, sccs: seq<seq<Component>>, cls: map<Component, nat>, c: Graph, a: Component,
      b: Component)
    returns (i: nat, j: nat, u: Component, v: Component)
    requires Indexes(g, sccs, cls) && IsCondensation(g, sccs, c) && Edge(c, a, b)
    ensures i < |sccs| && j < |sccs| && i != j && RepOf(sccs[i]) == a && RepOf(sccs[j]) == b
    ensures Edge(g, u, v) && u in cls && v in cls && cls[u] == i && cls[v] == j
  {
    i := RepPosition(sccs, c.Keys, a);
    j := CondensedEdge(g, sccs, c, i, b);
    u, v :| u in sccs[i] && v in sccs[j] && Edge(g, u, v);
    hide IsCondensation, RepOf, Edge;
    var k := PlaceIn(sccs[i], u);
    var n := PlaceIn(sccs[j], v);
  }

  /** Where an edge of the condensation leads. */
  lemma CondensedEdge(g: Graph, sccs: seq<seq<Component>>, c: Graph, i: nat, b: Component) returns (j: nat)
    requires forall k :: 0 <= k < |sccs| ==> |sccs[k]| > 0
    requires IsCondensation(g, sccs, c) && i < |sccs| && Edge(c, RepOf(sccs[i]), b)
    ensures j < |sccs| && i != j && RepOf(sccs[j]) == b && LinkedSccs(g, sccs[i], sccs[j])
  {
    hide LinkedSccs;
    assert b in c[RepOf(sccs[i])];
    j := RepPosition(sccs, c.Keys, b);
    assert RepOf(sccs[j]) in c[RepOf(sccs[i])];
  }

  /** The condensation is acyclic whatever cycles the workflow has. */
  lemma CondensationIsAcyclic(g: Graph, sccs: seq<seq<Component>>, c: Graph)
    requires IsSccDecomposition(g, sccs) && IsCondensation(g, sccs, c)
    ensures Acyclic(c)
  {
    var cls := IndexOf(g, sccs);
    CondensationIsInjective(g, sccs, c);
    RankedIsAcyclic(g, sccs, cls, c);
  }

  /** The representatives, last component first. */
  function RepOrder(sccs: seq<seq<Component>>): (order: seq<Component>)
    requires forall i :: 0 <= i < |sccs| ==> |sccs[i]| > 0
    ensures |order| == |sccs| && forall i :: 0 <= i < |sccs| ==> order[i] == RepOf(sccs[|sccs| - 1 - i])
  {
    seq(|sccs|, i requires 0 <= i < |sccs| => RepOf(sccs[|sccs| - 1 - i]))
  }

  lemma RepOrderDistinct(sccs: seq<seq<Component>>)
    requires (forall i :: 0 <= i < |sccs| ==> |sccs[i]| > 0) && RepsInjective(sccs)
    ensures Distinct(RepOrder(sccs))
  {
    hide RepOf, RepOrder;
  }

  lemma RankedIsAcyclic(g: Graph, sccs: seq<seq<Component>>, cls: map<Component, nat>, c: Graph)
    requires Indexes(g, sccs, cls) && Backward(g, cls) && RepsInjective(sccs) && IsCondensation(g, sccs, c)
    ensures Acyclic(c)
  {
    hide Indexes, Backward, RepsInjective, IsCondensation, RepOf, RepOrder, Acyclic, Edge, Distinct;
    IndexedNonEmpty(g, sccs, cls);
    var order := RepOrder(sccs);
    RepOrderDistinct(sccs);
    forall a, b | Edge(c, a, b)
      ensures exists i, j :: 0 <= i < j < |order| && order[i] == a && order[j] == b
    {
      var i, j := CompressedBackward(g, sccs, cls, c, a, b);
      assert order[|sccs| - 1 - i] == a && order[|sccs| - 1 - j] == b;
    }
    ForwardOrderIsAcyclic(c, order);
  }

  /** An edge of the condensation leads to a component emitted before. */
  lemma CompressedBackward(g: Graph, sccs: seq<seq<Component>>, cls: map<Component, nat>, c: Graph, a: Component,
      b: Component)
    returns (i: nat, j: nat)
    requires Indexes(g, sccs, cls) && Backward(g, cls) && IsCondensation(g, sccs, c) && Edge(c, a, b)
    ensures j < i < |sccs| && |sccs[i]| > 0 && |sccs[j]| > 0 && RepOf(sccs[i]) == a && RepOf(sccs[j]) == b
  {
    var u, v;
    i, j, u, v := CompressedEdge(g, sccs, cls, c, a, b);
    hide IsCondensation, RepOf;
  }

  /** Contraction preserves reachability: `x` reaches `y` iff the node of `x` reaches the node of `y`. */
  lemma CondensationPreservesReach(g: Graph, sccs: seq<seq<Component>>, c: Graph, i: nat, x: Component, j: nat,
      y: Component)
    requires IsSccDecomposition(g, sccs) && IsCondensation(g, sccs, c)
    requires i < |sccs| && x in sccs[i] && j < |sccs| && y in sccs[j]
    ensures Reach(g, x, y) <==> Reach(c, RepOf(sccs[i]), RepOf(sccs[j]))
  {
    var cls := IndexOf(g, sccs);
    assert x in cls && cls[x] == i by { var k :| 0 <= k < |sccs[i]| && sccs[i][k] == x; }
    assert y in cls && cls[y] == j by { var k :| 0 <= k < |sccs[j]| && sccs[j][k] == y; }
    if Reach(g, x, y) {
      ReachDown(g, sccs, cls, c, x, y);
    }
    if Reach(c, RepOf(sccs[i]), RepOf(sccs[j])) {
      CondensationIsInjective(g, sccs, c);
      ReachUp(g, sccs, cls, c, x, y);
    }
  }

  lemma ReachDown(g: Graph, sccs: seq<seq<Component>>, cls: map<Component, nat>, c: Graph, x: Component, y: Component)
    requires Indexes(g, sccs, cls) && IsCondensation(g, sccs, c)
    requires x in cls && y in cls && Reach(g, x, y)
    ensures Reach(c, RepOf(sccs[cls[x]]), RepOf(sccs[cls[y]]))
  {
    var a := RepOf(sccs[cls[x]]);
    var below := set v | v in cls && Reach(c, a, RepOf(sccs[cls[v]]));
    forall u, v | u in below && Edge(g, u, v)
      ensures v in below
    {
      DownStep(g, sccs, cls, c, u, v);
      hide Indexes, IsCondensation, Reach, RepOf;
      ReachTrans(c, a, RepOf(sccs[cls[u]]), RepOf(sccs[cls[v]]));
    }
    ReachRefl(c, a);
    hide Indexes, IsCondensation, Reach, RepOf;
    ReachStaysIn(g, below, x, y);
  }

  lemma DownStep(g: Graph, sccs: seq<seq<Component>>, cls: map<Component, nat>, c: Graph, u: Component, v: Component)
    requires Indexes(g, sccs, cls) && IsCondensation(g, sccs, c) && Edge(g, u, v)
    ensures u in cls && v in cls && cls[u] < |sccs| && cls[v] < |sccs|
    ensures Reach(c, RepOf(sccs[cls[u]]), RepOf(sccs[cls[v]]))
  {
    var k, m := cls[u], cls[v];
    hide Reach, RepOf;
    if k != m {
      assert LinkedSccs(g, sccs[k], sccs[m]);
      ReachEdge(c, RepOf(sccs[k]), RepOf(sccs[m]));
    } else {
      ReachRefl(c, RepOf(sccs[k]));
    }
  }

  lemma ReachUp(g: Graph, sccs: seq<seq<Component>>, cls: map<Component, nat>, c: Graph, x: Component, y: Component)
    requires Indexes(g, sccs, cls) && RepsInjective(sccs) && IsCondensation(g, sccs, c)
    requires forall u, v :: u in cls && v in cls && cls[u] == cls[v] ==> Reach(g, u, v)
    requires x in cls && y in cls && Reach(c, RepOf(sccs[cls[x]]), RepOf(sccs[cls[y]]))
    ensures Reach(g, x, y)
  {
    var below := set v | v in cls && Reach(g, x, v) :: RepOf(sccs[cls[v]]);
    forall a, b | a in below && Edge(c, a, b)
      ensures b in below
    {
      var w :| w in cls && Reach(g, x, w) && RepOf(sccs[cls[w]]) == a;
      var i, j, u, v := CompressedEdge(g, sccs, cls, c, a, b);
      ReachTrans(g, x, w, u);
      ReachEdge(g, u, v);
      ReachTrans(g, x, u, v);
    }
    ReachRefl(g, x);
    ReachStaysIn(c, below, RepOf(sccs[cls[x]]), RepOf(sccs[cls[y]]));
    var w :| w in cls && Reach(g, x, w) && RepOf(sccs[cls[w]]) == RepOf(sccs[cls[y]]);
    ReachTrans(g, x, w, y);
  }

  // ---------------------------------------------------------------- a workflow that cannot be contracted

  /** Two components that feed each other, beside both `SccNode`s that may stand for them. */
  function Colliding(a: Component, b: Component): Graph {
    map[a := [b], b := [a], Scc([a, b]) := [], Scc([b, a]) := []]
  }

  lemma SinkIsAlone(g: Graph, c: seq<Component>, x: Component)
    requires IsScc(g, c) && x in c && x in g && g[x] == []
    ensures c == [x]
  {
    forall y | y in c
      ensures y == x
    {
      assert Mutual(g, x, y);
      ReachStaysIn(g, {x}, x, y);
    }
    assert forall i :: 0 <= i < |c| ==> c[i] in c;
    DistinctWithin(c, {x});
  }

  lemma PairTogether(g: Graph, c: seq<Component>, a: Component, b: Component)
    requires IsScc(g, c) && a in c && a != b && Edge(g, a, b) && Edge(g, b, a)
    requires forall v :: Edge(g, a, v) || Edge(g, b, v) ==> v == a || v == b
    ensures c == [a, b] || c == [b, a]
  {
    ReachEdge(g, a, b);
    ReachEdge(g, b, a);
    assert Mutual(g, a, b);
    assert b in c;
    forall y | y in c
      ensures y == a || y == b
    {
      assert Mutual(g, a, y);
      ReachStaysIn(g, {a, b}, a, y);
    }
    assert forall i :: 0 <= i < |c| ==> c[i] in c;
    TwoMembers(c, a, b);
  }

  lemma TwoMembers(c: seq<Component>, a: Component, b: Component)
    requires Distinct(c) && a != b && a in c && b in c && forall i :: 0 <= i < |c| ==> c[i] == a || c[i] == b
    ensures c == [a, b] || c == [b, a]
  {
    DistinctWithin(c, {a, b});
  }

  lemma HasComponent(g: Graph, sccs: seq<seq<Component>>, x: Component) returns (i: nat)
    requires IsSccDecomposition(g, sccs) && x in Nodes(g)
    ensures i < |sccs| && x in sccs[i] && IsScc(g, sccs[i])
  {
    assert x in Done(sccs);
    i :| 0 <= i < |sccs| && x in sccs[i];
  }

  /** In whatever order the search emits the pair, its node is one of the two that are there already. */
  lemma CollidingHasNoCondensation(a: Component, b: Component, sccs: seq<seq<Component>>, c: Graph)
    requires a.Plain? && b.Plain? && a != b
    requires IsSccDecomposition(Colliding(a, b), sccs)
    ensures !RepsInjective(sccs) && !IsCondensation(Colliding(a, b), sccs, c)
  {
    var g := Colliding(a, b);
    hide IsSccDecomposition, IsCondensation, IsScc, SccsOk;
    assert a in g.Keys && Scc([a, b]) in g.Keys && Scc([b, a]) in g.Keys;
    var i := HasComponent(g, sccs, a);
    var j := HasComponent(g, sccs, Scc([a, b]));
    var k := HasComponent(g, sccs, Scc([b, a]));
    PairTogether(g, sccs[i], a, b);
    SinkIsAlone(g, sccs[j], Scc([a, b]));
    SinkIsAlone(g, sccs[k], Scc([b, a]));
    SccsNotEmpty(g, sccs);
    assert RepOf(sccs[i]) == RepOf(sccs[j]) || RepOf(sccs[i]) == RepOf(sccs[k]);
    assert |sccs[i]| == 2 && |sccs[j]| == |sccs[k]| == 1;
    assert !RepsInjective(sccs);
    if IsCondensation(g, sccs, c) {
      CondensationIsInjective(g, sccs, c);
    }
  }

  lemma SccsNotEmpty(g: Graph, sccs: seq<seq<Component>>)
    requires IsSccDecomposition(g, sccs)
    ensures forall i :: 0 <= i < |sccs| ==> |sccs[i]| > 0
  {
  }
}
