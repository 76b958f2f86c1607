/** `Workflow._topological_sort`: Kahn's algorithm on in-degrees counted with multiplicity. */
module TopoSort {
  import opened Graphs

  /** How many edges lead from the nodes listed in `from` to `v`. */
  function CountInto(g: Graph, from: seq<Component>, v: Component): nat {
    if from == [] then 0 else multiset(Neighbors(g, from[0]))[v] + CountInto(g, from[1..], v)
  }

  function InDegrees(g: Graph, nodes: seq<Component>): map<Component, int> {
    map v | v in Nodes(g) :: CountInto(g, nodes, v)
  }

  function Sources(degree: map<Component, int>, nodes: seq<Component>): (queue: seq<Component>)
    requires forall v :: v in nodes ==> v in degree
    ensures forall v :: v in queue <==> v in nodes && degree[v] == 0
    ensures Distinct(nodes) ==> Distinct(queue)
  {
    if nodes == [] then []
    else
      var rest := Sources(degree, nodes[1..]);
      assert nodes == [nodes[0]] + nodes[1..];
      if degree[nodes[0]] == 0 then [nodes[0]] + rest else rest
  }

  /** The queue starts with the nodes of in-degree zero, in the order of the node list. */
  lemma {:induction false} SourcesInOrder(degree: map<Component, int>, nodes: seq<Component>, v: Component)
    requires v in degree && forall u :: u in nodes ==> u in degree
    ensures Sources(degree, []) == []
    ensures Sources(degree, nodes + [v]) == Sources(degree, nodes) + if degree[v] == 0 then [v] else []
  {
    if nodes == [] {
      assert nodes + [v] == [v] && [v][1..] == [];
    } else {
      assert (nodes + [v])[1..] == nodes[1..] + [v];
      SourcesInOrder(degree, nodes[1..], v);
    }
  }

  /** The loop over the neighbours of a finished node. */
  function Relax(degree: map<Component, int>, queue: seq<Component>,
      neighbors: seq<Component>): (map<Component, int>, seq<Component>)
    requires forall v :: v in neighbors ==> v in degree
    decreases neighbors
  {
    if neighbors == [] then (degree, queue)
    else
      var v := neighbors[0];
      var degree' := degree[v := degree[v] - 1];
      Relax(degree', if degree'[v] == 0 then queue + [v] else queue, neighbors[1..])
  }

  ghost function Positive(degree: map<Component, int>): set<Component> {
    set v | v in degree && degree[v] > 0
  }

  lemma {:induction false} RelaxMeasure(degree: map<Component, int>, queue: seq<Component>, neighbors: seq<Component>)
    requires forall v :: v in neighbors ==> v in degree
    ensures var (degree', queue') := Relax(degree, queue, neighbors);
            && degree'.Keys == degree.Keys
            && |Positive(degree')| + |queue'| <= |Positive(degree)| + |queue|
    decreases neighbors
  {
    if neighbors != [] {
      var v := neighbors[0];
      var degree1 := degree[v := degree[v] - 1];
      assert Positive(degree1) == if degree[v] == 1 then Positive(degree) - {v} else Positive(degree);
      RelaxMeasure(degree1, if degree1[v] == 0 then queue + [v] else queue, neighbors[1..]);
    }
  }

  /** The main loop: what it appends to `order`. */
  function Drain(g: Graph, degree: map<Component, int>, queue: seq<Component>, order: seq<Component>): seq<Component>
    requires degree.Keys == Nodes(g)
    decreases |Positive(degree)| + |queue|
  {
    if queue == [] then order
    else
      assert forall v :: v in Neighbors(g, queue[0]) ==> Edge(g, queue[0], v);
      RelaxMeasure(degree, queue[1..], Neighbors(g, queue[0]));
      var (degree', queue') := Relax(degree, queue[1..], Neighbors(g, queue[0]));
      Drain(g, degree', queue', order + [queue[0]])
  }

  /** The order Kahn's algorithm computes for the node list `nodes`. */
  function TopologicalOrder(g: Graph, nodes: seq<Component>): seq<Component>
    requires IsEnumeration(nodes, Nodes(g))
  {
    var degree := InDegrees(g, nodes);
    Drain(g, degree, Sources(degree, nodes), [])
  }

  lemma {:induction false} CountIntoSnoc(g: Graph, from: seq<Component>, u: Component, v: Component)
    ensures CountInto(g, from + [u], v) == CountInto(g, from, v) + multiset(Neighbors(g, u))[v]
  {
    if from == [] {
      assert from + [u] == [u];
    } else {
      assert (from + [u])[1..] == from[1..] + [u];
      CountIntoSnoc(g, from[1..], u, v);
    }
  }

  /** `Workflow._topological_sort`. */
  method TopologicalSort(g: Graph, nodes: seq<Component>) returns (order: seq<Component>)
    requires IsEnumeration(nodes, Nodes(g))
    ensures order == TopologicalOrder(g, nodes)
  {
    var inDegree := CountDegrees(g, nodes);
    var queue := Sources(inDegree, nodes);
    order := [];
    while queue != []
      invariant inDegree.Keys == Nodes(g)
      invariant Drain(g, inDegree, queue, order) == TopologicalOrder(g, nodes)
      decreases |Positive(inDegree)| + |queue|
    {
      var node := queue[0];
      assert forall v :: v in Neighbors(g, node) ==> Edge(g, node, v);
      RelaxMeasure(inDegree, queue[1..], Neighbors(g, node));
      order := order + [node];
      inDegree, queue := RelaxNeighbors(inDegree, queue[1..], Neighbors(g, node));
    }
  }

  method RelaxNeighbors(degree: map<Component, int>, queue: seq<Component>, neighbors: seq<Component>)
    returns (degree': map<Component, int>, queue': seq<Component>)
    requires forall v :: v in neighbors ==> v in degree
    ensures (degree', queue') == Relax(degree, queue, neighbors)
  {
    degree', queue' := degree, queue;
    for k := 0 to |neighbors|
      invariant degree'.Keys == degree.Keys
      invariant Relax(degree', queue', neighbors[k..]) == Relax(degree, queue, neighbors)
    {
      var v := neighbors[k];
      assert neighbors[k..][0] == v && neighbors[k..][1..] == neighbors[k + 1..];
      degree' := degree'[v := degree'[v] - 1];
      if degree'[v] == 0 {
        queue' := queue' + [v];
      }
    }
  }

  lemma InDegreesNext(g: Graph, nodes: seq<Component>, i: nat, before: map<Component, int>, after: map<Component, int>)
    requires i < |nodes| && before == InDegrees(g, nodes[..i]) && after.Keys == before.Keys
    requires forall v :: v in before ==> after[v] == before[v] + multiset(Neighbors(g, nodes[i]))[v]
    ensures after == InDegrees(g, nodes[..i + 1])
  {
    assert nodes[..i + 1] == nodes[..i] + [nodes[i]];
    hide CountInto, Neighbors;
    forall v | v in after
      ensures after[v] == CountInto(g, nodes[..i + 1], v)
    {
      CountIntoSnoc(g, nodes[..i], nodes[i], v);
    }
  }

  /** The first loop; the zero entries stand for the defaults of the dictionary. */
  method CountDegrees(g: Graph, nodes: seq<Component>) returns (inDegree: map<Component, int>)
    ensures inDegree == InDegrees(g, nodes)
  {
    inDegree := map v | v in Nodes(g) :: 0;
    for i := 0 to |nodes|
      invariant inDegree == InDegrees(g, nodes[..i])
    {
      assert forall v :: v in Neighbors(g, nodes[i]) ==> Edge(g, nodes[i], v);
      ghost var before := inDegree;
      inDegree := CountNeighbors(inDegree, Neighbors(g, nodes[i]));
      InDegreesNext(g, nodes, i, before, inDegree);
    }
    assert nodes[..|nodes|] == nodes;
  }

  method CountNeighbors(degree: map<Component, int>, neighbors: seq<Component>) returns (degree': map<Component, int>)
    requires forall v :: v in neighbors ==> v in degree
    ensures degree'.Keys == degree.Keys
    ensures forall v :: v in degree ==> degree'[v] == degree[v] + multiset(neighbors)[v]
  {
    degree' := degree;
    for k := 0 to |neighbors|
      invariant degree'.Keys == degree.Keys
      invariant forall v :: v in degree ==> degree'[v] == degree[v] + multiset(neighbors[..k])[v]
    {
      assert neighbors[..k + 1] == neighbors[..k] + [neighbors[k]];
      degree' := degree'[neighbors[k] := degree'[neighbors[k]] + 1];
    }
    assert neighbors[..|neighbors|] == neighbors;
  }

  lemma SplitFirst(neighbors: seq<Component>)
    requires neighbors != []
    ensures multiset(neighbors) == multiset(neighbors[1..])[neighbors[0] := multiset(neighbors[1..])[neighbors[0]] + 1]
    ensures forall w :: w in neighbors <==> w == neighbors[0] || w in neighbors[1..]
    ensures forall w :: w in neighbors[1..] <==> multiset(neighbors[1..])[w] > 0
  {
    assert neighbors == [neighbors[0]] + neighbors[1..];
    assert forall w :: w in neighbors[1..] <==> w in multiset(neighbors[1..]);
  }

  lemma DistinctSnoc(queue: seq<Component>, v: Component)
    requires Distinct(queue) && v !in queue
    ensures Distinct(queue + [v])
  {
    forall i | 0 <= i < |queue|
      ensures queue[i] != v
    {
      assert queue[i] in queue;
    }
  }

  lemma DistinctTail(queue: seq<Component>)
    requires Distinct(queue) && queue != []
    ensures Distinct(queue[1..])
  {
  }

  /** Degrees have fallen by the multiplicities, and what reached zero is queued, once. */
  ghost predicate Relaxed(degree: map<Component, int>, queue: seq<Component>, neighbors: seq<Component>,
      degree': map<Component, int>, queue': seq<Component>) {
    && degree'.Keys == degree.Keys
    && (forall v :: v in degree ==> degree'[v] == degree[v] - multiset(neighbors)[v])
    && Distinct(queue')
    && (forall v :: v in queue' <==> v in queue || (v in neighbors && v in degree' && degree'[v] == 0))
  }

  ghost predicate CanRelax(degree: map<Component, int>, queue: seq<Component>, neighbors: seq<Component>) {
    && (forall v :: v in neighbors ==> v in degree && degree[v] >= multiset(neighbors)[v])
    && Distinct(queue) && forall v :: v in queue ==> v !in neighbors
  }

  lemma RelaxOne(degree: map<Component, int>, queue: seq<Component>, neighbors: seq<Component>,
      degree1: map<Component, int>, queue1: seq<Component>)
    requires neighbors != [] && CanRelax(degree, queue, neighbors) && neighbors[0] in degree
    requires degree1 == degree[neighbors[0] := degree[neighbors[0]] - 1]
    requires queue1 == if degree1[neighbors[0]] == 0 then queue + [neighbors[0]] else queue
    ensures CanRelax(degree1, queue1, neighbors[1..])
  {
    SplitFirst(neighbors);
    assert neighbors[0] !in queue;
    DistinctSnoc(queue, neighbors[0]);
    hide Distinct;
  }

  lemma RelaxedNext(degree: map<Component, int>, queue: seq<Component>, neighbors: seq<Component>,
      degree1: map<Component, int>, queue1: seq<Component>, degree': map<Component, int>, queue': seq<Component>)
    requires neighbors != [] && CanRelax(degree, queue, neighbors) && neighbors[0] in degree
    requires degree1 == degree[neighbors[0] := degree[neighbors[0]] - 1]
    requires queue1 == if degree1[neighbors[0]] == 0 then queue + [neighbors[0]] else queue
    requires Relaxed(degree1, queue1, neighbors[1..], degree', queue')
    ensures Relaxed(degree, queue, neighbors, degree', queue')
  {
    hide Distinct;
    SplitFirst(neighbors);
    assert forall v :: v in degree ==> degree'[v] == degree[v] - multiset(neighbors)[v];
    forall v
      ensures v in queue' <==> v in queue || (v in neighbors && v in degree' && degree'[v] == 0)
    {
      QueuedBySomeStep(degree, queue, neighbors, degree1, queue1, degree', queue', v);
    }
  }

  lemma QueuedBySomeStep(degree: map<Component, int>, queue: seq<Component>, neighbors: seq<Component>,
      degree1: map<Component, int>, queue1: seq<Component>, degree': map<Component, int>, queue': seq<Component>,
      v: Component)
    requires neighbors != [] && CanRelax(degree, queue, neighbors) && neighbors[0] in degree
    requires degree1 == degree[neighbors[0] := degree[neighbors[0]] - 1]
    requires queue1 == if degree1[neighbors[0]] == 0 then queue + [neighbors[0]] else queue
    requires Relaxed(degree1, queue1, neighbors[1..], degree', queue')
    ensures v in queue' <==> v in queue || (v in neighbors && v in degree' && degree'[v] == 0)
  {
    SplitFirst(neighbors);
    hide Distinct;
    if v == neighbors[0] {
      assert degree[v] >= multiset(neighbors)[v];
    }
  }

  /** The exact effect of relaxing. */
  lemma {:induction false} RelaxEffect(degree: map<Component, int>, queue: seq<Component>, neighbors: seq<Component>)
    requires CanRelax(degree, queue, neighbors)
    ensures forall v :: v in neighbors ==> v in degree
    ensures var (degree', queue') := Relax(degree, queue, neighbors); Relaxed(degree, queue, neighbors, degree', queue')
    decreases neighbors
  {
    CanRelaxMeans(degree, queue, neighbors);
    hide CanRelax, Relaxed;
    if neighbors == [] {
      NothingRelaxed(degree, queue);
    } else {
      var v := neighbors[0];
      var degree1 := degree[v := degree[v] - 1];
      var queue1 := if degree1[v] == 0 then queue + [v] else queue;
      RelaxOne(degree, queue, neighbors, degree1, queue1);
      RelaxEffect(degree1, queue1, neighbors[1..]);
      var (degree', queue') := Relax(degree1, queue1, neighbors[1..]);
      RelaxedNext(degree, queue, neighbors, degree1, queue1, degree', queue');
    }
  }

  lemma CanRelaxMeans(degree: map<Component, int>, queue: seq<Component>, neighbors: seq<Component>)
    requires CanRelax(degree, queue, neighbors)
    ensures forall v :: v in neighbors ==> v in degree
    ensures Distinct(queue)
  {
  }

  lemma NothingRelaxed(degree: map<Component, int>, queue: seq<Component>)
    requires Distinct(queue)
    ensures Relaxed(degree, queue, [], degree, queue)
  {
  }

  /** Every node is either in `order` or in `remaining`, once. */
  ghost predicate Listing(g: Graph, order: seq<Component>, remaining: seq<Component>) {
    && Distinct(remaining) && Distinct(order)
    && (forall v :: v in Nodes(g) <==> v in order || v in remaining)
    && (forall v :: v in order ==> v !in remaining)
  }

  /** The degrees count the edges out of the remaining nodes. */
  ghost predicate Counted(g: Graph, degree: map<Component, int>, remaining: seq<Component>) {
    degree.Keys == Nodes(g) && forall v :: v in degree ==> degree[v] == CountInto(g, remaining, v)
  }

  /** The queue has each remaining node of degree zero once. */
  ghost predicate Queued(degree: map<Component, int>, queue: seq<Component>, remaining: seq<Component>) {
    Distinct(queue) && forall v :: v in queue <==> v in remaining && v in degree && degree[v] == 0
  }

  /** The invariant of the main loop; `remaining` lists the nodes not yet in `order`. */
  ghost predicate Draining(g: Graph, degree: map<Component, int>, queue: seq<Component>, order: seq<Component>,
      remaining: seq<Component>) {
    Listing(g, order, remaining) && Counted(g, degree, remaining) && Queued(degree, queue, remaining)
      && PredecessorsFirst(g, order)
  }

  /** Every edge into a listed node starts at a node listed before it. */
  ghost predicate PredecessorsFirst(g: Graph, order: seq<Component>) {
    forall j, u :: 0 <= j < |order| && Edge(g, u, order[j]) ==> u in order[..j]
  }

  lemma {:induction false} CountIntoZero(g: Graph, from: seq<Component>, v: Component)
    ensures CountInto(g, from, v) == 0 <==> forall u :: u in from ==> !Edge(g, u, v)
  {
    if from != [] {
      assert from == [from[0]] + from[1..];
      CountIntoZero(g, from[1..], v);
      assert v in multiset(Neighbors(g, from[0])) <==> Edge(g, from[0], v);
    }
  }

  lemma {:induction false} CountIntoWithout(g: Graph, from: seq<Component>, i: nat, v: Component)
    requires i < |from|
    ensures CountInto(g, from, v) == CountInto(g, from[..i] + from[i + 1..], v) + multiset(Neighbors(g, from[i]))[v]
  {
    hide Neighbors;
    if i == 0 {
      assert from[..0] + from[1..] == from[1..];
    } else {
      CountIntoWithout(g, from[1..], i - 1, v);
      var without := from[..i] + from[i + 1..];
      assert without[0] == from[0] && without[1..] == from[1..][..i - 1] + from[1..][i..];
    }
  }

  lemma Without(s: seq<Component>, i: nat, r: seq<Component>)
    requires Distinct(s) && i < |s| && r == s[..i] + s[i + 1..]
    ensures Distinct(r) && forall v :: v in r <==> v in s && v != s[i]
  {
    forall v | v in s && v != s[i]
      ensures v in r
    {
      var k :| 0 <= k < |s| && s[k] == v;
      assert if k < i then r[k] == v else r[k - 1] == v;
    }
  }

  /** A queued node has no edge from a node that is not yet listed, not even from itself. */
  lemma QueuedIsFree(g: Graph, degree: map<Component, int>, queue: seq<Component>, order: seq<Component>,
      remaining: seq<Component>, u: Component)
    requires Draining(g, degree, queue, order, remaining) && u in queue
    ensures u !in Neighbors(g, u)
    ensures forall w :: Edge(g, w, u) ==> w in order
  {
    hide CountInto, Distinct, PredecessorsFirst;
    CountIntoZero(g, remaining, u);
    assert u in Neighbors(g, u) ==> Edge(g, u, u);
  }

  lemma NeighborCounted(g: Graph, degree: map<Component, int>, remaining: seq<Component>, i: nat, v: Component)
    requires Counted(g, degree, remaining) && i < |remaining| && v in Neighbors(g, remaining[i])
    ensures v in degree && degree[v] >= multiset(Neighbors(g, remaining[i]))[v] > 0
  {
    assert Edge(g, remaining[i], v);
    CountIntoWithout(g, remaining, i, v);
    hide CountInto;
    assert v in multiset(Neighbors(g, remaining[i]));
  }

  /** Relaxing the head of the queue meets what relaxing demands. */
  lemma RelaxApplies(g: Graph, degree: map<Component, int>, queue: seq<Component>, remaining: seq<Component>, i: nat)
    requires Counted(g, degree, remaining) && Queued(degree, queue, remaining) && queue != []
    requires i < |remaining| && remaining[i] == queue[0]
    ensures CanRelax(degree, queue[1..], Neighbors(g, queue[0]))
    ensures forall v :: v in Neighbors(g, queue[0]) ==> v in degree
  {
    DistinctTail(queue);
    hide Counted, Distinct;
    forall v | v in Neighbors(g, queue[0])
      ensures v in degree && degree[v] >= multiset(Neighbors(g, queue[0]))[v] > 0
    {
      NeighborCounted(g, degree, remaining, i, v);
    }
    forall v | v in queue[1..]
      ensures v !in Neighbors(g, queue[0])
    {
      assert v in queue;
    }
  }

  lemma OrderStep(g: Graph, order: seq<Component>, u: Component)
    requires PredecessorsFirst(g, order) && forall w :: Edge(g, w, u) ==> w in order
    ensures PredecessorsFirst(g, order + [u])
  {
    var order' := order + [u];
    forall j, w | 0 <= j < |order'| && Edge(g, w, order'[j])
      ensures w in order'[..j]
    {
      assert order'[..j] == order[..j];
      assert order[..|order|] == order;
    }
  }

  lemma HeadRemains(g: Graph, degree: map<Component, int>, queue: seq<Component>, remaining: seq<Component>)
      returns (i: nat)
    requires Counted(g, degree, remaining) && Queued(degree, queue, remaining) && queue != []
    ensures i < |remaining| && remaining[i] == queue[0] && queue[0] in queue
    ensures forall v :: v in Neighbors(g, queue[0]) ==> v in degree
  {
    assert queue[0] in queue;
    i :| 0 <= i < |remaining| && remaining[i] == queue[0];
    forall v | v in Neighbors(g, queue[0])
      ensures v in degree
    {
      NeighborCounted(g, degree, remaining, i, v);
    }
  }

  lemma DrainStep(g: Graph, degree: map<Component, int>, queue: seq<Component>, order: seq<Component>,
      remaining: seq<Component>)
    returns (remaining': seq<Component>)
    requires Draining(g, degree, queue, order, remaining) && queue != []
    ensures forall v :: v in Neighbors(g, queue[0]) ==> v in degree
    ensures var (degree', queue') := Relax(degree, queue[1..], Neighbors(g, queue[0]));
            Draining(g, degree', queue', order + [queue[0]], remaining')
  {
    hide PredecessorsFirst, Relax, Counted, Queued, Listing, Neighbors;
    var i := HeadRemains(g, degree, queue, remaining);
    remaining' := remaining[..i] + remaining[i + 1..];
    QueuedIsFree(g, degree, queue, order, remaining, queue[0]);
    ListingNext(g, order, remaining, i, remaining');
    OrderStep(g, order, queue[0]);
    TablesNext(g, degree, queue, order, remaining, i, remaining');
  }

  lemma ListingNext(g: Graph, order: seq<Component>, remaining: seq<Component>, i: nat, remaining': seq<Component>)
    requires Listing(g, order, remaining) && i < |remaining| && remaining' == remaining[..i] + remaining[i + 1..]
    ensures Listing(g, order + [remaining[i]], remaining')
  {
    Without(remaining, i, remaining');
    DistinctSnoc(order, remaining[i]);
    hide Distinct;
  }

  lemma TablesNext(g: Graph, degree: map<Component, int>, queue: seq<Component>, order: seq<Component>,
      remaining: seq<Component>, i: nat, remaining': seq<Component>)
    requires Draining(g, degree, queue, order, remaining) && queue != []
    requires i < |remaining| && remaining[i] == queue[0] && queue[0] !in Neighbors(g, queue[0])
    requires remaining' == remaining[..i] + remaining[i + 1..]
    ensures forall v :: v in Neighbors(g, queue[0]) ==> v in degree
    ensures var (degree', queue') := Relax(degree, queue[1..], Neighbors(g, queue[0]));
            Counted(g, degree', remaining') && Queued(degree', queue', remaining')
  {
    hide Relax, Relaxed, CanRelax, PredecessorsFirst, Counted, Queued, Listing, Distinct, Neighbors;
    RelaxApplies(g, degree, queue, remaining, i);
    RelaxEffect(degree, queue[1..], Neighbors(g, queue[0]));
    var (degree', queue') := Relax(degree, queue[1..], Neighbors(g, queue[0]));
    CountedNext(g, degree, queue[1..], remaining, i, remaining', degree', queue');
    QueuedNext(g, degree, queue, order, remaining, i, remaining', degree', queue');
  }

  lemma CountedNext(g: Graph, degree: map<Component, int>, queue: seq<Component>, remaining: seq<Component>, i: nat,
      remaining': seq<Component>, degree': map<Component, int>, queue': seq<Component>)
    requires Counted(g, degree, remaining) && i < |remaining| && remaining' == remaining[..i] + remaining[i + 1..]
    requires Relaxed(degree, queue, Neighbors(g, remaining[i]), degree', queue')
    ensures Counted(g, degree', remaining')
  {
    hide CountInto, Neighbors, Distinct;
    forall v | v in degree'
      ensures degree'[v] == CountInto(g, remaining', v)
    {
      CountIntoWithout(g, remaining, i, v);
    }
  }

  lemma QueuedNext(g: Graph, degree: map<Component, int>, queue: seq<Component>, order: seq<Component>,
      remaining: seq<Component>, i: nat, remaining': seq<Component>, degree': map<Component, int>,
      queue': seq<Component>)
    requires Draining(g, degree, queue, order, remaining) && queue != []
    requires i < |remaining| && remaining[i] == queue[0] && queue[0] !in Neighbors(g, queue[0])
    requires remaining' == remaining[..i] + remaining[i + 1..]
    requires Relaxed(degree, queue[1..], Neighbors(g, queue[0]), degree', queue')
    ensures Queued(degree', queue', remaining')
  {
    hide PredecessorsFirst, Neighbors, Counted, Listing;
    ListingMeans(g, order, remaining, i, remaining');
    forall v
      ensures v in queue' <==> v in remaining' && v in degree' && degree'[v] == 0
    {
      QueuedNextAt(g, degree, queue, order, remaining, i, degree', queue', v);
    }
  }

  lemma QueuedNextAt(g: Graph, degree: map<Component, int>, queue: seq<Component>, order: seq<Component>,
      remaining: seq<Component>, i: nat, degree': map<Component, int>, queue': seq<Component>, v: Component)
    requires Draining(g, degree, queue, order, remaining) && queue != []
    requires i < |remaining| && remaining[i] == queue[0] && queue[0] !in Neighbors(g, queue[0])
    requires Relaxed(degree, queue[1..], Neighbors(g, queue[0]), degree', queue')
    ensures v in queue' <==> v in remaining && v != queue[0] && v in degree' && degree'[v] == 0
  {
    hide PredecessorsFirst, Neighbors, Counted, Listing;
    QueueTail(queue, v);
    if v in Neighbors(g, queue[0]) {
      NeighborRemains(g, degree, order, remaining, i, v);
    } else {
      assert v !in multiset(Neighbors(g, queue[0]));
    }
    hide Distinct;
  }

  lemma ListingMeans(g: Graph, order: seq<Component>, remaining: seq<Component>, i: nat, remaining': seq<Component>)
    requires Listing(g, order, remaining) && i < |remaining| && remaining' == remaining[..i] + remaining[i + 1..]
    ensures forall v :: v in remaining' <==> v in remaining && v != remaining[i]
  {
    Without(remaining, i, remaining');
  }

  lemma QueueTail(queue: seq<Component>, v: Component)
    requires queue != [] && Distinct(queue)
    ensures v in queue[1..] <==> v in queue && v != queue[0]
  {
    assert queue == [queue[0]] + queue[1..];
  }

  lemma PredecessorListed(g: Graph, order: seq<Component>, u: Component, v: Component)
    requires PredecessorsFirst(g, order) && v in order && Edge(g, u, v)
    ensures u in order
  {
    var j :| 0 <= j < |order| && order[j] == v;
    assert u in order[..j];
  }

  lemma NeighborRemains(g: Graph, degree: map<Component, int>, order: seq<Component>, remaining: seq<Component>, i: nat,
      v: Component)
    requires PredecessorsFirst(g, order) && i < |remaining| && v in Neighbors(g, remaining[i])
    requires Counted(g, degree, remaining) && Listing(g, order, remaining)
    ensures v in remaining && v in degree && degree[v] != 0
  {
    assert remaining[i] in remaining && Edge(g, remaining[i], v);
    NeighborCounted(g, degree, remaining, i, v);
    hide Counted, Distinct, PredecessorsFirst;
    if v in order {
      PredecessorListed(g, order, remaining[i], v);
    }
  }

  /** A node on a cycle; a self-loop counts. */
  ghost predicate OnCycle(g: Graph, x: Component) {
    exists y :: Edge(g, x, y) && Reach(g, y, x)
  }

  ghost predicate BehindCycle(g: Graph, v: Component) {
    exists x :: OnCycle(g, x) && Reach(g, x, v)
  }

  lemma EarlierPredecessor(g: Graph, order: seq<Component>, u: Component, i: nat, j: nat)
    requires Distinct(order) && PredecessorsFirst(g, order)
    requires i < |order| && order[i] == u && j < |order| && Edge(g, u, order[j])
    ensures i < j
  {
    assert u in order[..j];
  }

  /** Whatever is listed has only listed nodes behind it, none of them on a cycle. */
  lemma ListedIsFree(g: Graph, order: seq<Component>, v: Component)
    requires Distinct(order) && PredecessorsFirst(g, order) && v in order
    ensures !BehindCycle(g, v)
  {
    forall x | OnCycle(g, x)
      ensures !Reach(g, x, v)
    {
      var y :| Edge(g, x, y) && Reach(g, y, x);
      if Reach(g, x, v) {
        var i := AncestorListed(g, order, x, v);
        var j := AncestorListed(g, order, y, x);
        EarlierPredecessor(g, order, x, i, j);
      }
    }
  }

  lemma AncestorListed(g: Graph, order: seq<Component>, x: Component, v: Component) returns (i: nat)
    requires Distinct(order) && PredecessorsFirst(g, order) && v in order && Reach(g, x, v)
    ensures i < |order| && order[i] == x
    ensures forall j :: 0 <= j < |order| && order[j] == v ==> i <= j
  {
    var p :| IsPath(g, p, x, v);
    var k := |p| - 1;
    var top :| 0 <= top < |order| && order[top] == v;
    i := top;
    while k > 0
      invariant 0 <= k < |p| && 0 <= i <= top && order[i] == p[k]
    {
      assert Edge(g, p[k - 1], p[k]);
      assert p[k - 1] in order[..i];
      i :| 0 <= i < |order| && order[i] == p[k - 1];
      k := k - 1;
    }
  }

  ghost predicate HasPredecessorIn(g: Graph, rest: seq<Component>, u: Component) {
    exists w :: w in rest && Edge(g, w, u)
  }

  /** If every node of `rest` has a predecessor in `rest`, all of them lie behind a cycle: walk backwards along `p`. */
  lemma {:induction false} WalkBack(g: Graph, rest: seq<Component>, p: seq<Component>, v: Component)
    requires forall u {:trigger HasPredecessorIn(g, rest, u)} :: u in rest ==> HasPredecessorIn(g, rest, u)
    requires |p| > 0 && IsPath(g, p, p[0], v) && forall k :: 0 <= k < |p| ==> p[k] in rest
    ensures BehindCycle(g, v)
    decreases Elems(rest) - Elems(p)
  {
    hide BehindCycle, OnCycle, Reach;
    var w := Predecessor(g, rest, p[0]);
    if w in p {
      WalkCloses(g, p, v, w);
    } else {
      WalkLonger(g, rest, p, v, w);
      WalkBack(g, rest, [w] + p, v);
    }
  }

  lemma Predecessor(g: Graph, rest: seq<Component>, u: Component) returns (w: Component)
    requires HasPredecessorIn(g, rest, u)
    ensures w in rest && Edge(g, w, u)
  {
    w :| w in rest && Edge(g, w, u);
  }

  lemma WalkLonger(g: Graph, rest: seq<Component>, p: seq<Component>, v: Component, w: Component)
    requires |p| > 0 && IsPath(g, p, p[0], v) && forall k :: 0 <= k < |p| ==> p[k] in rest
    requires w in rest && w !in p && Edge(g, w, p[0])
    ensures IsPath(g, [w] + p, w, v) && forall k :: 0 <= k < |[w] + p| ==> ([w] + p)[k] in rest
    ensures Elems(rest) - Elems([w] + p) < Elems(rest) - Elems(p)
  {
    assert forall i :: 0 <= i < |p| ==> ([w] + p)[i + 1] == p[i];
    ElemsSplit([w], p);
    ElemsSingle(w);
    var m :| 0 <= m < |rest| && rest[m] == w;
    assert w in Elems(rest) && w !in Elems(p);
    hide Elems;
  }

  lemma WalkCloses(g: Graph, p: seq<Component>, v: Component, w: Component)
    requires |p| > 0 && IsPath(g, p, p[0], v) && w in p && Edge(g, w, p[0])
    ensures BehindCycle(g, v)
  {
    var k :| 0 <= k < |p| && p[k] == w;
    assert IsPath(g, p[..k + 1], p[0], w);
    assert IsPath(g, p[k..], w, v);
    assert OnCycle(g, w);
  }

  lemma CountedPredecessor(g: Graph, from: seq<Component>, u: Component)
    requires CountInto(g, from, u) > 0
    ensures HasPredecessorIn(g, from, u)
  {
    CountIntoZero(g, from, u);
  }

  lemma StuckIsBehindCycle(g: Graph, remaining: seq<Component>, v: Component)
    requires v in remaining && forall u :: u in remaining ==> CountInto(g, remaining, u) > 0
    ensures BehindCycle(g, v)
  {
    hide BehindCycle, HasPredecessorIn, CountInto, Reach;
    forall u | u in remaining
      ensures HasPredecessorIn(g, remaining, u)
    {
      CountedPredecessor(g, remaining, u);
    }
    assert IsPath(g, [v], v, v);
    WalkBack(g, remaining, [v], v);
  }

  lemma DrainedIsExact(g: Graph, degree: map<Component, int>, order: seq<Component>, remaining: seq<Component>,
      v: Component)
    requires Draining(g, degree, [], order, remaining) && v in Nodes(g)
    ensures v in order <==> !BehindCycle(g, v)
  {
    if v in order {
      ListedIsFree(g, order, v);
    } else {
      forall u | u in remaining
        ensures CountInto(g, remaining, u) > 0
      {
        assert u in degree && degree[u] != 0;
      }
      StuckIsBehindCycle(g, remaining, v);
    }
  }

  /** What the main loop leaves behind: exactly the nodes that some cycle reaches. */
  lemma {:induction false} DrainEnds(g: Graph, degree: map<Component, int>, queue: seq<Component>,
      order: seq<Component>, remaining: seq<Component>)
    requires Draining(g, degree, queue, order, remaining)
    ensures var r := Drain(g, degree, queue, order);
            && Distinct(r) && PredecessorsFirst(g, r)
            && forall v :: v in r <==> v in Nodes(g) && !BehindCycle(g, v)
    decreases |Positive(degree)| + |queue|
  {
    if queue == [] {
      forall v | v in Nodes(g)
        ensures v in order <==> !BehindCycle(g, v)
      {
        DrainedIsExact(g, degree, order, remaining, v);
      }
    } else {
      var remaining' := DrainStep(g, degree, queue, order, remaining);
      var (degree', queue') := Relax(degree, queue[1..], Neighbors(g, queue[0]));
      RelaxMeasure(degree, queue[1..], Neighbors(g, queue[0]));
      DrainEnds(g, degree', queue', order + [queue[0]], remaining');
    }
  }

  /** Kahn's order lists, each once and after all their predecessors, exactly the nodes no cycle reaches. */
  lemma TopologicalOrderLists(g: Graph, nodes: seq<Component>)
    requires IsEnumeration(nodes, Nodes(g))
    ensures var order := TopologicalOrder(g, nodes);
            && Distinct(order) && PredecessorsFirst(g, order)
            && forall v :: v in order <==> v in Nodes(g) && !BehindCycle(g, v)
  {
    var degree := InDegrees(g, nodes);
    DrainEnds(g, degree, Sources(degree, nodes), [], nodes);
  }

  /** A list that has all nodes behind their predecessors is in order. */
  lemma CompleteIsForward(g: Graph, order: seq<Component>)
    requires Distinct(order) && PredecessorsFirst(g, order) && forall v :: v in Nodes(g) ==> v in order
    ensures ForwardOrder(g, order)
  {
    forall u, v | Edge(g, u, v)
      ensures exists i, j :: 0 <= i < j < |order| && order[i] == u && order[j] == v
    {
      assert v in Nodes(g);
      var j := PlaceIn(order, v);
      var i := EarlierPlace(g, order, u, j);
      assert i < j;
    }
  }

  lemma EarlierPlace(g: Graph, order: seq<Component>, u: Component, j: nat) returns (i: nat)
    requires PredecessorsFirst(g, order) && j < |order| && Edge(g, u, order[j])
    ensures i < j && order[i] == u
  {
    assert u in order[..j];
    i :| 0 <= i < j && order[..j][i] == u;
  }

  lemma BehindCycleIsCyclic(g: Graph, v: Component)
    requires BehindCycle(g, v)
    ensures !Acyclic(g)
  {
    hide Reach;
    var x :| OnCycle(g, x) && Reach(g, x, v);
    var y :| Edge(g, x, y) && Reach(g, y, x);
  }

  /** The order is complete, with every edge pointing forward, iff the graph is acyclic. */
  lemma CompleteIffAcyclic(g: Graph, nodes: seq<Component>)
    requires IsEnumeration(nodes, Nodes(g))
    ensures (forall v :: v in Nodes(g) ==> v in TopologicalOrder(g, nodes)) <==> Acyclic(g)
    ensures Acyclic(g) ==> ForwardOrder(g, TopologicalOrder(g, nodes))
  {
    hide *;
    var order := TopologicalOrder(g, nodes);
    TopologicalOrderLists(g, nodes);
    if forall v :: v in Nodes(g) ==> v in order {
      CompleteIsForward(g, order);
      ForwardOrderIsAcyclic(g, order);
    } else {
      var v :| v in Nodes(g) && v !in order;
      BehindCycleIsCyclic(g, v);
    }
  }
}
