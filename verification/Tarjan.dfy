/** `Workflow._find_sccs`: Tarjan's algorithm over the dictionaries it updates in place. */
module Tarjan {
  import opened Arithmetic
  import opened Graphs

  /** A snapshot of the search's variables. */
  datatype State = State(disc: map<Component, nat>, low: map<Component, nat>, stack: seq<Component>,
      inStack: set<Component>, time: nat, sccs: seq<seq<Component>>)

  /** The nodes listed so far. */
  ghost function Done(sccs: seq<seq<Component>>): set<Component> {
    set i, v | 0 <= i < |sccs| && v in sccs[i] :: v
  }

  /** `c` lists, each once, exactly the nodes mutually reachable with any of its members. */
  ghost predicate IsScc(g: Graph, c: seq<Component>) {
    && |c| > 0
    && Distinct(c)
    && forall x, y :: x in c ==> (Mutual(g, x, y) <==> y in c)
  }

  /** Every edge out of a list ends in the same list or in one emitted before it. */
  ghost predicate BackwardEdges(g: Graph, sccs: seq<seq<Component>>) {
    forall i, u, v :: 0 <= i < |sccs| && u in sccs[i] && Edge(g, u, v) ==> v in Done(sccs[..i + 1])
  }

  ghost predicate Disjoint(sccs: seq<seq<Component>>) {
    forall i, j, v :: 0 <= i < j < |sccs| && v in sccs[i] ==> v !in sccs[j]
  }

  /** The finished components: exact, pairwise disjoint and in reverse topological order. */
  ghost predicate SccsOk(g: Graph, sccs: seq<seq<Component>>) {
    && (forall i :: 0 <= i < |sccs| ==> IsScc(g, sccs[i]))
    && Disjoint(sccs)
    && BackwardEdges(g, sccs)
  }

  /** What `_find_sccs` promises. */
  ghost predicate IsSccDecomposition(g: Graph, sccs: seq<seq<Component>>) {
    && SccsOk(g, sccs)
    && Done(sccs) == Nodes(g)
  }

  /** The stack holds discovered nodes in the order of their numbers. */
  ghost predicate StackNumbered(s: State) {
    && (forall i :: 0 <= i < |s.stack| ==> s.stack[i] in s.disc)
    && (forall i, j :: 0 <= i < j < |s.stack| ==> s.disc[s.stack[i]] < s.disc[s.stack[j]])
  }

  ghost predicate Tables(g: Graph, s: State, gray: set<Component>) {
    && StackNumbered(s)
    && s.disc.Keys == s.low.Keys == s.inStack + Done(s.sccs)
    && s.disc.Keys <= Nodes(g)
    && gray <= s.inStack
    && s.inStack !! Done(s.sccs)
    && (forall v :: v in s.disc ==> s.disc[v] < s.time)
    && s.inStack == set i | 0 <= i < |s.stack| :: s.stack[i]
  }

  /** Nodes that are discovered and no longer on the call stack have discovered successors only. */
  ghost predicate BlackExplored(g: Graph, s: State, gray: set<Component>) {
    forall u, v :: u in s.disc && u !in gray && Edge(g, u, v) ==> v in s.disc
  }

  ghost predicate StackOrdered(g: Graph, s: State) {
    forall i, j {:trigger Reach(g, s.stack[i], s.stack[j])} :: 0 <= i <= j < |s.stack| ==>
      Reach(g, s.stack[i], s.stack[j])
  }

  ghost predicate LeadsToGray(g: Graph, s: State, gray: set<Component>, j: int) {
    exists i :: 0 <= i <= j < |s.stack| && s.stack[i] in gray && Reach(g, s.stack[j], s.stack[i])
  }

  ghost predicate AllLeadToGray(g: Graph, s: State, gray: set<Component>) {
    forall j {:trigger LeadsToGray(g, s, gray, j)} :: 0 <= j < |s.stack| ==> LeadsToGray(g, s, gray, j)
  }

  /** `gray` is the set of nodes whose `tarjan_dfs` call is still running. */
  ghost predicate Inv(g: Graph, s: State, gray: set<Component>) {
    && Tables(g, s, gray)
    && BlackExplored(g, s, gray)
    && StackOrdered(g, s)
    && AllLeadToGray(g, s, gray)
    && SccsOk(g, s.sccs)
  }

  /** Nothing recorded in `s` is changed in `t`, and what is new was discovered later. */
  ghost predicate Grows(s: State, t: State) {
    && (forall v :: v in s.disc ==> v in t.disc && t.disc[v] == s.disc[v])
    && (forall v :: v in s.low ==> v in t.low && t.low[v] == s.low[v])
    && (forall v :: v in t.disc && v !in s.disc ==> t.disc[v] >= s.time)
    && s.time <= t.time
    && s.stack <= t.stack
    && s.sccs <= t.sccs
  }

  /** `low` bounds every edge from the stack at or above `from` to the stack below `base`. */
  ghost predicate LowBounds(g: Graph, s: State, base: nat, from: nat, low: nat)
    requires StackNumbered(s) && base <= from <= |s.stack|
  {
    forall i, j :: 0 <= i < base && from <= j < |s.stack| && Edge(g, s.stack[j], s.stack[i]) ==>
      low <= s.disc[s.stack[i]]
  }

  /** `low` is the number of a stacked node below `top` that `v` reaches. */
  ghost predicate LowReached(g: Graph, s: State, v: Component, low: nat, top: nat)
    requires StackNumbered(s) && top <= |s.stack|
  {
    exists i :: 0 <= i < top && s.disc[s.stack[i]] == low && Reach(g, v, s.stack[i])
  }

  /** What a finished call `tarjan_dfs(node)`, entered with `base` nodes stacked, says about `low[node]`. */
  ghost predicate VisitedLow(g: Graph, t: State, node: Component, base: nat)
    requires StackNumbered(t) && base <= |t.stack|
  {
    && node in t.disc && node in t.low
    && t.low[node] <= t.disc[node]
    && LowBounds(g, t, base, base, t.low[node])
    && (if |t.stack| == base then t.low[node] == t.disc[node]
        else LowReached(g, t, node, t.low[node], base) && t.stack[base] == node)
  }

  /** What one call `tarjan_dfs(node)` does to the state. */
  ghost predicate Visited(g: Graph, s: State, t: State, node: Component, gray: set<Component>) {
    Inv(g, t, gray) && Grows(s, t) && VisitedLow(g, t, node, |s.stack|)
  }

  /** The first `k` neighbours of `node` are discovered, and `low` bounds those stacked below `base`. */
  ghost predicate Processed(g: Graph, t: State, node: Component, base: nat, k: nat, low: nat)
    requires StackNumbered(t) && base <= |t.stack| && k <= |Neighbors(g, node)|
  {
    forall m :: 0 <= m < k ==>
      && Neighbors(g, node)[m] in t.disc
      && forall i :: 0 <= i < base && t.stack[i] == Neighbors(g, node)[m] ==> low <= t.disc[t.stack[i]]
  }

  /** What the neighbour loop keeps about `low[node]` once `k` neighbours are done. */
  ghost predicate ScanLow(g: Graph, t: State, node: Component, base: nat, k: nat)
    requires StackNumbered(t)
  {
    && base < |t.stack| && t.stack[base] == node
    && node in t.low
    && t.low[node] <= t.disc[node]
    && LowReached(g, t, node, t.low[node], base + 1)
    && LowBounds(g, t, base, base + 1, t.low[node])
    && k <= |Neighbors(g, node)|
    && Processed(g, t, node, base, k, t.low[node])
  }

  /** The invariant of the neighbour loop of `tarjan_dfs(node)`, entered in state `s`. */
  ghost predicate Scanning(g: Graph, s: State, t: State, node: Component, gray: set<Component>, k: nat) {
    Inv(g, t, gray + {node}) && Grows(s, t) && ScanLow(g, t, node, |s.stack|, k)
  }

  function Pushed(s: State, node: Component): State {
    State(s.disc[node := s.time], s.low[node := s.time], s.stack + [node], s.inStack + {node}, s.time + 1, s.sccs)
  }

  lemma PushTables(g: Graph, s: State, node: Component, gray: set<Component>)
    requires Tables(g, s, gray)
    requires node in Nodes(g) && node !in s.disc
    ensures Tables(g, Pushed(s, node), gray + {node})
  {
    var t := Pushed(s, node);
    PushNumbered(g, s, node, gray);
    ElemsSplit(s.stack, [node]);
    ElemsSingle(node);
    assert s.inStack == Elems(s.stack) && t.inStack == Elems(t.stack);
    hide StackNumbered, Elems;
  }

  lemma PushNumbered(g: Graph, s: State, node: Component, gray: set<Component>)
    requires Tables(g, s, gray) && node !in s.disc
    ensures StackNumbered(Pushed(s, node))
  {
    var t := Pushed(s, node);
    assert t.stack[|s.stack|] == node;
    assert forall i :: 0 <= i < |s.stack| ==> t.stack[i] == s.stack[i];
  }

  lemma PushOrdered(g: Graph, s: State, node: Component, gray: set<Component>)
    requires StackOrdered(g, s) && AllLeadToGray(g, s, gray)
    requires forall x :: x in gray ==> Reach(g, x, node)
    ensures StackOrdered(g, Pushed(s, node)) && AllLeadToGray(g, Pushed(s, node), gray + {node})
  {
    var t := Pushed(s, node);
    var n := |s.stack|;
    ReachRefl(g, node);
    forall j | 0 <= j < n
      ensures Reach(g, s.stack[j], node) && LeadsToGray(g, t, gray + {node}, j)
    {
      assert LeadsToGray(g, s, gray, j);
      var m :| 0 <= m <= j && s.stack[m] in gray && Reach(g, s.stack[j], s.stack[m]);
      ReachTrans(g, s.stack[j], s.stack[m], node);
      assert t.stack[m] in gray + {node};
    }
    assert t.stack[n] in gray + {node};
    assert LeadsToGray(g, t, gray + {node}, n);
    forall i, j | 0 <= i <= j < |t.stack|
      ensures Reach(g, t.stack[i], t.stack[j])
    {
    }
  }

  lemma PushBlack(g: Graph, s: State, node: Component, gray: set<Component>)
    requires BlackExplored(g, s, gray)
    ensures BlackExplored(g, Pushed(s, node), gray + {node})
  {
  }

  lemma PushGrows(g: Graph, s: State, node: Component, gray: set<Component>)
    requires Tables(g, s, gray) && node !in s.disc
    ensures Grows(s, Pushed(s, node))
  {
  }

  lemma PushScans(g: Graph, s: State, node: Component)
    requires StackNumbered(Pushed(s, node))
    ensures ScanLow(g, Pushed(s, node), node, |s.stack|, 0)
  {
    ReachRefl(g, node);
    hide Reach;
    var t := Pushed(s, node);
    assert t.stack[|s.stack|] == node;
  }

  lemma PushStarts(g: Graph, s: State, node: Component, gray: set<Component>)
    requires Inv(g, s, gray)
    requires node in Nodes(g) && node !in s.disc
    requires forall x :: x in gray ==> Reach(g, x, node)
    ensures Scanning(g, s, Pushed(s, node), node, gray, 0)
  {
    hide Tables, BlackExplored, StackOrdered, AllLeadToGray, Grows, ScanLow, SccsOk, Reach;
    PushTables(g, s, node, gray);
    TablesMean(g, Pushed(s, node), gray + {node});
    PushBlack(g, s, node, gray);
    PushOrdered(g, s, node, gray);
    PushGrows(g, s, node, gray);
    PushScans(g, s, node);
  }

  function Lowered(s: State, node: Component, bound: nat): State
    requires node in s.low
  {
    s.(low := s.low[node := Min(s.low[node], bound)])
  }

  /** `low` of a stacked node is free to change: no invariant speaks of it. */
  lemma InvLowered(g: Graph, s: State, node: Component, gray: set<Component>, bound: nat)
    requires Inv(g, s, gray) && node in s.low
    ensures Inv(g, Lowered(s, node, bound), gray)
  {
    var t := Lowered(s, node, bound);
    forall j | 0 <= j < |t.stack|
      ensures LeadsToGray(g, t, gray, j)
    {
      assert LeadsToGray(g, s, gray, j);
    }
  }

  lemma LowReachedStep(g: Graph, u: State, node: Component, nb: Component, n: nat, top: nat)
    requires StackNumbered(u) && n < top <= |u.stack| && u.stack[n] == node
    requires nb in u.low && node in u.low && u.low[nb] < u.low[node] <= u.disc[node]
    requires Edge(g, node, nb)
    requires LowReached(g, u, nb, u.low[nb], top)
    ensures LowReached(g, u, node, u.low[nb], n + 1)
  {
    var i :| 0 <= i < top && u.disc[u.stack[i]] == u.low[nb] && Reach(g, nb, u.stack[i]);
    ReachEdge(g, node, nb);
    ReachTrans(g, node, nb, u.stack[i]);
    assert i <= n;
  }

  lemma LowReachedKept(g: Graph, t: State, u: State, node: Component, low: nat, top: nat)
    requires StackNumbered(t) && StackNumbered(u) && t.stack <= u.stack && top <= |t.stack|
    requires forall v :: v in t.disc ==> v in u.disc && u.disc[v] == t.disc[v]
    requires LowReached(g, t, node, low, top)
    ensures LowReached(g, u, node, low, top)
  {
    var i :| 0 <= i < top && t.disc[t.stack[i]] == low && Reach(g, node, t.stack[i]);
    assert u.stack[i] == t.stack[i];
  }

  /** Bounds on the edges out of the stack before and after a call join to bounds on all of them. */
  lemma LowBoundsJoin(g: Graph, t: State, u: State, base: nat, from: nat, low: nat, low': nat)
    requires StackNumbered(t) && StackNumbered(u) && t.stack <= u.stack
    requires forall v :: v in t.disc ==> v in u.disc && u.disc[v] == t.disc[v]
    requires base <= from <= |t.stack|
    requires LowBounds(g, t, base, from, low) && LowBounds(g, u, |t.stack|, |t.stack|, low')
    ensures LowBounds(g, u, base, from, Min(low, low'))
  {
    forall i, j | 0 <= i < base && from <= j < |u.stack| && Edge(g, u.stack[j], u.stack[i])
      ensures Min(low, low') <= u.disc[u.stack[i]]
    {
      assert u.stack[i] == t.stack[i];
      if j < |t.stack| {
        assert u.stack[j] == t.stack[j];
      }
    }
  }

  lemma ProcessedStep(g: Graph, t: State, u: State, node: Component, base: nat, k: nat, low: nat, low': nat)
    requires StackNumbered(t) && StackNumbered(u) && t.stack <= u.stack && base <= |t.stack|
    requires forall v :: v in t.disc ==> v in u.disc && u.disc[v] == t.disc[v]
    requires k < |Neighbors(g, node)| && low' <= low && Processed(g, t, node, base, k, low)
    requires Neighbors(g, node)[k] in u.disc
    requires forall i :: 0 <= i < base && t.stack[i] == Neighbors(g, node)[k] ==> low' <= t.disc[t.stack[i]]
    ensures Processed(g, u, node, base, k + 1, low')
  {
    forall m | 0 <= m < k + 1
      ensures Neighbors(g, node)[m] in u.disc
      ensures forall i :: 0 <= i < base && u.stack[i] == Neighbors(g, node)[m] ==> low' <= u.disc[u.stack[i]]
    {
      if m < k {
        assert Neighbors(g, node)[m] in t.disc;
      }
      forall i | 0 <= i < base && u.stack[i] == Neighbors(g, node)[m]
        ensures low' <= u.disc[u.stack[i]]
      {
        assert u.stack[i] == t.stack[i];
      }
    }
  }

  lemma LowReachedVisited(g: Graph, t: State, u: State, node: Component, nb: Component, base: nat)
    requires StackNumbered(t) && StackNumbered(u) && t.stack <= u.stack && base < |t.stack| && t.stack[base] == node
    requires forall v :: v in t.disc ==> v in u.disc && u.disc[v] == t.disc[v]
    requires node in u.low && u.low[node] <= u.disc[node] && Edge(g, node, nb)
    requires LowReached(g, t, node, u.low[node], base + 1)
    requires VisitedLow(g, u, nb, |t.stack|) && u.disc[node] < u.disc[nb]
    ensures LowReached(g, Lowered(u, node, u.low[nb]), node, Min(u.low[node], u.low[nb]), base + 1)
  {
    assert u.stack[base] == node;
    if u.low[nb] < u.low[node] {
      LowReachedStep(g, u, node, nb, base, |t.stack|);
    } else {
      LowReachedKept(g, t, u, node, u.low[node], base + 1);
    }
    LowReachedKept(g, u, Lowered(u, node, u.low[nb]), node, Min(u.low[node], u.low[nb]), base + 1);
  }

  /** The loop body after a recursive call on an undiscovered neighbour, as far as `low` goes. */
  lemma ScanVisitedLow(g: Graph, t: State, u: State, node: Component, base: nat, k: nat)
    requires StackNumbered(t) && StackNumbered(u) && t.stack <= u.stack
    requires forall v :: v in t.disc ==> v in u.disc && u.disc[v] == t.disc[v]
    requires ScanLow(g, t, node, base, k) && k < |Neighbors(g, node)|
    requires node in u.low && u.low[node] == t.low[node]
    requires forall i :: 0 <= i < |t.stack| ==> t.stack[i] != Neighbors(g, node)[k]
    requires VisitedLow(g, u, Neighbors(g, node)[k], |t.stack|)
    requires u.disc[node] < u.disc[Neighbors(g, node)[k]]
    ensures ScanLow(g, Lowered(u, node, u.low[Neighbors(g, node)[k]]), node, base, k + 1)
  {
    var nb := Neighbors(g, node)[k];
    var w := Lowered(u, node, u.low[nb]);
    assert u.stack[base] == node;
    LowBoundsJoin(g, t, w, base, base + 1, t.low[node], u.low[nb]);
    assert Edge(g, node, nb);
    LowReachedVisited(g, t, u, node, nb, base);
    ProcessedStep(g, t, w, node, base, k, t.low[node], w.low[node]);
  }

  lemma GrowsTrans(s: State, t: State, u: State)
    requires Grows(s, t) && Grows(t, u)
    ensures Grows(s, u)
  {
  }

  lemma GrowsLowered(s: State, u: State, node: Component, bound: nat)
    requires Grows(s, u) && node !in s.low && node in u.low
    ensures Grows(s, Lowered(u, node, bound))
  {
  }

  lemma ScanVisitedLowFrom(g: Graph, t: State, u: State, node: Component, gray: set<Component>, base: nat, k: nat)
    requires StackNumbered(t) && ScanLow(g, t, node, base, k) && k < |Neighbors(g, node)|
    requires node in t.disc && t.disc[node] < t.time && Neighbors(g, node)[k] !in t.disc
    requires Visited(g, t, u, Neighbors(g, node)[k], gray + {node})
    ensures node in u.low && Neighbors(g, node)[k] in u.low && Neighbors(g, node)[k] in u.disc
    ensures StackNumbered(Lowered(u, node, u.low[Neighbors(g, node)[k]]))
    ensures ScanLow(g, Lowered(u, node, u.low[Neighbors(g, node)[k]]), node, base, k + 1)
  {
    hide BlackExplored, StackOrdered, AllLeadToGray, SccsOk, LowBounds, LowReached, Processed, Reach;
    ScanVisitedLow(g, t, u, node, base, k);
  }

  lemma ScanVisited(g: Graph, s: State, t: State, u: State, node: Component, gray: set<Component>, k: nat)
    requires node !in s.low
    requires StackNumbered(t) && node in t.disc && t.disc[node] < t.time
    requires Grows(s, t) && ScanLow(g, t, node, |s.stack|, k) && k < |Neighbors(g, node)|
    requires Neighbors(g, node)[k] !in t.disc
    requires Visited(g, t, u, Neighbors(g, node)[k], gray + {node})
    ensures Scanning(g, s, Lowered(u, node, u.low[Neighbors(g, node)[k]]), node, gray, k + 1)
  {
    hide Tables, BlackExplored, StackOrdered, AllLeadToGray, SccsOk, Grows, ScanLow, VisitedLow, StackNumbered;
    ScanVisitedLowFrom(g, t, u, node, gray, |s.stack|, k);
    GrowsTrans(s, t, u);
    GrowsLowered(s, u, node, u.low[Neighbors(g, node)[k]]);
    InvLowered(g, u, node, gray + {node}, u.low[Neighbors(g, node)[k]]);
  }

  lemma ScanStackedLow(g: Graph, t: State, node: Component, base: nat, k: nat, i: nat)
    requires StackNumbered(t)
    requires ScanLow(g, t, node, base, k) && k < |Neighbors(g, node)|
    requires i < |t.stack| && t.stack[i] == Neighbors(g, node)[k]
    ensures ScanLow(g, Lowered(t, node, t.disc[t.stack[i]]), node, base, k + 1)
  {
    var w := Lowered(t, node, t.disc[t.stack[i]]);
    assert Edge(g, node, t.stack[i]);
    ReachEdge(g, node, t.stack[i]);
    if t.disc[t.stack[i]] < t.low[node] {
      assert i <= base;
      assert w.disc[w.stack[i]] == w.low[node];
    } else {
      LowReachedKept(g, t, w, node, w.low[node], base + 1);
    }
    ProcessedStep(g, t, w, node, base, k, t.low[node], w.low[node]);
  }

  lemma ScanLeftLow(g: Graph, t: State, node: Component, base: nat, k: nat)
    requires StackNumbered(t)
    requires ScanLow(g, t, node, base, k) && k < |Neighbors(g, node)|
    requires Neighbors(g, node)[k] in t.disc
    requires forall i :: 0 <= i < |t.stack| ==> t.stack[i] != Neighbors(g, node)[k]
    ensures ScanLow(g, t, node, base, k + 1)
  {
    ProcessedStep(g, t, t, node, base, k, t.low[node], t.low[node]);
  }

  /** The loop body for a neighbour that is already discovered and still stacked. */
  lemma ScanStacked(g: Graph, s: State, t: State, node: Component, gray: set<Component>, k: nat)
    requires node !in s.low
    requires Scanning(g, s, t, node, gray, k) && k < |Neighbors(g, node)|
    requires Neighbors(g, node)[k] in t.inStack
    ensures Scanning(g, s, Lowered(t, node, t.disc[Neighbors(g, node)[k]]), node, gray, k + 1)
  {
    ScanningStack(g, s, t, node, gray, k);
    ScanningTables(g, s, t, node, gray, k);
    hide Inv, ScanLow, Grows, Tables, StackNumbered;
    var i := PlaceIn(t.stack, Neighbors(g, node)[k]);
    ScanStackedLow(g, t, node, |s.stack|, k, i);
    InvLowered(g, t, node, gray + {node}, t.disc[t.stack[i]]);
    GrowsLowered(s, t, node, t.disc[t.stack[i]]);
    LoweredNumbered(t, node, t.disc[t.stack[i]]);
  }

  lemma LoweredNumbered(t: State, node: Component, bound: nat)
    requires StackNumbered(t) && node in t.low
    ensures StackNumbered(Lowered(t, node, bound))
  {
  }

  /** The loop body for a neighbour whose component is already emitted. */
  lemma ScanLeft(g: Graph, s: State, t: State, node: Component, gray: set<Component>, k: nat)
    requires Scanning(g, s, t, node, gray, k) && k < |Neighbors(g, node)|
    requires Neighbors(g, node)[k] in t.disc && Neighbors(g, node)[k] !in t.inStack
    ensures Scanning(g, s, t, node, gray, k + 1)
  {
    assert forall i :: 0 <= i < |t.stack| ==> t.stack[i] in t.inStack;
    ScanLeftLow(g, t, node, |s.stack|, k);
  }

  lemma FinishLeadsToGray(g: Graph, t: State, node: Component, gray: set<Component>, base: nat, j: nat)
    requires StackNumbered(t) && AllLeadToGray(g, t, gray + {node})
    requires base < |t.stack| && t.stack[base] == node && j < |t.stack|
    requires node in t.low && t.low[node] < t.disc[node] && LowReached(g, t, node, t.low[node], base + 1)
    ensures LeadsToGray(g, t, gray, j)
  {
    var i := GrayWitness(g, t, gray + {node}, j);
    if t.stack[i] == node {
      hide AllLeadToGray, LeadsToGray, Reach;
      var w := LowWitness(g, t, node, base);
      var m := GrayWitness(g, t, gray + {node}, w);
      ReachTrans(g, t.stack[j], node, t.stack[w]);
      ReachTrans(g, t.stack[j], t.stack[w], t.stack[m]);
      GrayBelow(g, t, node, gray, base, i, m, j);
    }
  }

  lemma GrayWitness(g: Graph, t: State, gray: set<Component>, j: nat) returns (i: nat)
    requires AllLeadToGray(g, t, gray) && j < |t.stack|
    ensures i <= j && t.stack[i] in gray && Reach(g, t.stack[j], t.stack[i])
  {
    assert LeadsToGray(g, t, gray, j);
    i :| 0 <= i <= j && t.stack[i] in gray && Reach(g, t.stack[j], t.stack[i]);
  }

  lemma LowWitness(g: Graph, t: State, node: Component, base: nat) returns (w: nat)
    requires StackNumbered(t) && base < |t.stack| && t.stack[base] == node
    requires node in t.low && t.low[node] < t.disc[node] && LowReached(g, t, node, t.low[node], base + 1)
    ensures w < base && Reach(g, node, t.stack[w])
  {
    w :| 0 <= w < base + 1 && t.disc[t.stack[w]] == t.low[node] && Reach(g, node, t.stack[w]);
  }

  /** The gray node found below `node` is another one. */
  lemma GrayBelow(g: Graph, t: State, node: Component, gray: set<Component>, base: nat, i: nat, m: nat, j: nat)
    requires StackNumbered(t) && base < |t.stack| && t.stack[base] == node && m < base && i <= j < |t.stack|
    requires t.stack[i] == node && t.stack[m] in gray + {node} && Reach(g, t.stack[j], t.stack[m])
    ensures LeadsToGray(g, t, gray, j)
  {
    assert t.disc[t.stack[m]] < t.disc[t.stack[base]];
    assert i >= base;
    assert t.stack[m] in gray;
  }

  /** Once every neighbour of `node` is done, `low[node]` bounds all edges from `node` up. */
  lemma ScannedBounds(g: Graph, t: State, node: Component, base: nat)
    requires StackNumbered(t) && ScanLow(g, t, node, base, |Neighbors(g, node)|)
    ensures LowBounds(g, t, base, base, t.low[node])
    ensures forall v :: Edge(g, node, v) ==> v in t.disc
  {
    forall v | Edge(g, node, v)
      ensures v in t.disc
      ensures forall i :: 0 <= i < base && t.stack[i] == v ==> t.low[node] <= t.disc[v]
    {
      var m :| 0 <= m < |Neighbors(g, node)| && Neighbors(g, node)[m] == v;
    }
  }

  lemma KeptLeadToGray(g: Graph, t: State, node: Component, gray: set<Component>, base: nat)
    requires StackNumbered(t) && AllLeadToGray(g, t, gray + {node})
    requires base < |t.stack| && t.stack[base] == node
    requires node in t.low && t.low[node] < t.disc[node] && LowReached(g, t, node, t.low[node], base + 1)
    ensures AllLeadToGray(g, t, gray)
  {
    forall j | 0 <= j < |t.stack|
      ensures LeadsToGray(g, t, gray, j)
    {
      FinishLeadsToGray(g, t, node, gray, base, j);
    }
  }

  lemma KeptLow(g: Graph, t: State, node: Component, base: nat)
    requires StackNumbered(t) && ScanLow(g, t, node, base, |Neighbors(g, node)|) && t.low[node] != t.disc[node]
    ensures VisitedLow(g, t, node, base)
  {
    ScannedBounds(g, t, node, base);
    var w :| 0 <= w < base + 1 && t.disc[t.stack[w]] == t.low[node] && Reach(g, node, t.stack[w]);
    assert w < base;
  }

  /** `node` is not the first of its component: it stays on the stack, finished. */
  lemma FinishKeep(g: Graph, s: State, t: State, node: Component, gray: set<Component>)
    requires Scanning(g, s, t, node, gray, |Neighbors(g, node)|)
    requires node in t.low && node in t.disc && t.low[node] != t.disc[node]
    ensures Visited(g, s, t, node, gray)
  {
    KeptLow(g, t, node, |s.stack|);
    KeptLeadToGray(g, t, node, gray, |s.stack|);
    ScannedBounds(g, t, node, |s.stack|);
  }

  lemma DoneClosed(g: Graph, sccs: seq<seq<Component>>, u: Component, v: Component)
    requires BackwardEdges(g, sccs) && u in Done(sccs) && Edge(g, u, v)
    ensures v in Done(sccs)
  {
    var i :| 0 <= i < |sccs| && u in sccs[i];
    assert v in Done(sccs[..i + 1]);
  }

  lemma EdgeStaysAbove(g: Graph, t: State, base: nat, i: nat, j: nat)
    requires StackNumbered(t) && base <= j < |t.stack| && i < |t.stack|
    requires LowBounds(g, t, base, base, t.disc[t.stack[base]]) && Edge(g, t.stack[j], t.stack[i])
    ensures base <= i
  {
  }

  lemma ElemAt(s: seq<Component>, v: Component) returns (j: nat)
    requires v in Elems(s)
    ensures j < |s| && s[j] == v
  {
    j :| 0 <= j < |s| && s[j] == v;
  }

  lemma SegmentEdge(g: Graph, t: State, node: Component, base: nat, gray: set<Component>, u: Component, v: Component)
    requires StackNumbered(t) && base < |t.stack| && t.stack[base] == node
    requires node in t.low && t.low[node] == t.disc[node] && LowBounds(g, t, base, base, t.low[node])
    requires BlackExplored(g, t, gray + {node}) && gray !! Elems(t.stack[base..])
    requires forall w :: Edge(g, node, w) ==> w in t.disc
    requires forall w :: w in t.disc ==> w in Done(t.sccs) || w in Elems(t.stack)
    requires u in Elems(t.stack[base..]) && Edge(g, u, v)
    ensures v in Elems(t.stack[base..]) || v in Done(t.sccs)
  {
    var seg := t.stack[base..];
    var j := ElemAt(seg, u);
    assert v in t.disc;
    if v !in Done(t.sccs) {
      var i := ElemAt(t.stack, v);
      EdgeStaysAbove(g, t, base, i, base + j);
      assert seg[i - base] == v;
    }
  }

  /** With `low[node] == disc[node]`, the stack from `node` up has edges to itself and to finished nodes only. */
  lemma SegmentClosed(g: Graph, t: State, node: Component, base: nat, gray: set<Component>)
    requires StackNumbered(t) && ScanLow(g, t, node, base, |Neighbors(g, node)|)
    requires t.low[node] == t.disc[node]
    requires BlackExplored(g, t, gray + {node}) && BackwardEdges(g, t.sccs)
    requires gray !! Elems(t.stack[base..])
    requires forall v :: v in t.disc ==> v in Done(t.sccs) || v in Elems(t.stack)
    ensures Closed(g, Elems(t.stack[base..]) + Done(t.sccs))
  {
    ScannedBounds(g, t, node, base);
    var seg := t.stack[base..];
    forall u, v | u in Elems(seg) + Done(t.sccs) && Edge(g, u, v)
      ensures v in Elems(seg) + Done(t.sccs)
    {
      if u in Done(t.sccs) {
        DoneClosed(g, t.sccs, u, v);
      } else {
        SegmentEdge(g, t, node, base, gray, u, v);
      }
    }
  }

  lemma SegmentReachesRoot(g: Graph, t: State, node: Component, base: nat, gray: set<Component>, x: Component)
    requires base < |t.stack| && t.stack[base] == node && AllLeadToGray(g, t, gray + {node})
    requires Closed(g, Elems(t.stack[base..]) + Done(t.sccs))
    requires Elems(t.stack) !! Done(t.sccs) && gray !! Elems(t.stack[base..])
    requires x in Elems(t.stack[base..])
    ensures Reach(g, x, node)
  {
    var seg := t.stack[base..];
    var j :| 0 <= j < |seg| && seg[j] == x;
    assert LeadsToGray(g, t, gray + {node}, base + j);
    var i :| 0 <= i <= base + j && t.stack[i] in gray + {node} && Reach(g, t.stack[base + j], t.stack[i]);
    ReachStaysIn(g, Elems(seg) + Done(t.sccs), x, t.stack[i]);
    assert t.stack[i] in Elems(t.stack);
  }

  /** The popped segment is a strongly connected component. */
  lemma SegmentIsScc(g: Graph, t: State, node: Component, base: nat, gray: set<Component>)
    requires StackNumbered(t) && StackOrdered(g, t)
    requires base < |t.stack| && t.stack[base] == node && AllLeadToGray(g, t, gray + {node})
    requires Closed(g, Elems(t.stack[base..]) + Done(t.sccs)) && BackwardEdges(g, t.sccs)
    requires Elems(t.stack) !! Done(t.sccs) && gray !! Elems(t.stack[base..])
    ensures IsScc(g, Reversed(t.stack[base..]))
  {
    var seg := t.stack[base..];
    var c := Reversed(seg);
    forall x | x in seg
      ensures Reach(g, x, node) && Reach(g, node, x) && x in Elems(t.stack)
    {
      SegmentReachesRoot(g, t, node, base, gray, x);
      var j :| 0 <= j < |seg| && seg[j] == x;
      assert t.stack[base + j] == x;
      assert Reach(g, t.stack[base], t.stack[base + j]);
    }
    ReversedMembers(seg);
    forall x, y | x in c
      ensures Mutual(g, x, y) <==> y in c
    {
      if y in c {
        ReachTrans(g, x, node, y);
        ReachTrans(g, y, node, x);
      } else if Mutual(g, x, y) {
        ReachStaysIn(g, Elems(seg) + Done(t.sccs), x, y);
        DoneReaches(g, t.sccs, y, x);
      }
    }
    forall i, j | 0 <= i < j < |c|
      ensures c[i] != c[j]
    {
      assert c[i] == t.stack[|t.stack| - 1 - i] && c[j] == t.stack[|t.stack| - 1 - j];
    }
  }

  lemma ReversedMembers(s: seq<Component>)
    ensures forall v :: v in Reversed(s) <==> v in s
  {
    forall v | v in s
      ensures v in Reversed(s)
    {
      var i :| 0 <= i < |s| && s[i] == v;
      assert Reversed(s)[|s| - 1 - i] == v;
    }
  }

  lemma DoneReaches(g: Graph, sccs: seq<seq<Component>>, x: Component, y: Component)
    requires BackwardEdges(g, sccs) && x in Done(sccs) && Reach(g, x, y)
    ensures y in Done(sccs)
  {
    forall u, v | u in Done(sccs) && Edge(g, u, v)
      ensures v in Done(sccs)
    {
      DoneClosed(g, sccs, u, v);
    }
    ReachStaysIn(g, Done(sccs), x, y);
  }

  /** A new component whose edges stay within it and the finished nodes may be emitted. */
  lemma SccsExtend(g: Graph, sccs: seq<seq<Component>>, c: seq<Component>)
    requires SccsOk(g, sccs) && IsScc(g, c)
    requires forall v :: v in c ==> v !in Done(sccs)
    requires forall u, v :: u in c && Edge(g, u, v) ==> v in c || v in Done(sccs)
    ensures SccsOk(g, sccs + [c])
    ensures Done(sccs + [c]) == Done(sccs) + Elems(c)
  {
    var r := sccs + [c];
    var n := |sccs|;
    assert r[n] == c && forall i :: 0 <= i < n ==> r[i] == sccs[i];
    assert r[..n + 1] == r;
    forall i, u, v | 0 <= i < |r| && u in r[i] && Edge(g, u, v)
      ensures v in Done(r[..i + 1])
    {
      if i < n {
        assert r[..i + 1] == sccs[..i + 1];
        assert u in sccs[i];
        assert v in Done(sccs[..i + 1]);
      } else if v in c {
        assert v in r[n];
      } else {
        var k :| 0 <= k < n && v in sccs[k];
        assert v in r[k];
      }
    }
    DoneExtend(sccs, c);
  }

  lemma DoneExtend(sccs: seq<seq<Component>>, c: seq<Component>)
    ensures Done(sccs + [c]) == Done(sccs) + Elems(c)
  {
    var r := sccs + [c];
    forall v
      ensures v in Done(r) <==> v in Done(sccs) + Elems(c)
    {
      if v in Done(sccs) {
        var i :| 0 <= i < |sccs| && v in sccs[i];
        assert v in r[i];
      } else if v in Elems(c) {
        assert v in r[|sccs|];
      }
    }
  }

  ghost function Popped(s: State, base: nat): State
    requires base <= |s.stack|
  {
    State(s.disc, s.low, s.stack[..base], s.inStack - Elems(s.stack[base..]), s.time,
      s.sccs + [Reversed(s.stack[base..])])
  }

  lemma ElemsReversed(s: seq<Component>)
    ensures Elems(Reversed(s)) == Elems(s)
  {
    ReversedMembers(s);
    assert forall v :: v in Elems(s) <==> v in s;
    assert forall v :: v in Elems(Reversed(s)) <==> v in Reversed(s);
  }

  lemma NumberedApart(s: State, base: nat)
    requires StackNumbered(s) && base <= |s.stack|
    ensures Elems(s.stack[..base]) !! Elems(s.stack[base..])
  {
    forall i, j | 0 <= i < base && 0 <= j < |s.stack[base..]|
      ensures s.stack[..base][i] != s.stack[base..][j]
    {
      assert s.disc[s.stack[i]] < s.disc[s.stack[base + j]];
    }
  }

  lemma PoppedSets(t: State, base: nat)
    requires StackNumbered(t) && base <= |t.stack| && t.inStack == Elems(t.stack)
    ensures Popped(t, base).inStack == Elems(t.stack[..base])
    ensures Elems(t.stack[..base]) !! Elems(t.stack[base..])
    ensures t.inStack == Elems(t.stack[..base]) + Elems(t.stack[base..])
    ensures Done(Popped(t, base).sccs) == Done(t.sccs) + Elems(t.stack[base..])
  {
    DoneExtend(t.sccs, Reversed(t.stack[base..]));
    ElemsReversed(t.stack[base..]);
    NumberedApart(t, base);
    assert t.stack == t.stack[..base] + t.stack[base..];
    ElemsSplit(t.stack[..base], t.stack[base..]);
  }

  lemma PoppedTables(g: Graph, s: State, t: State, node: Component, gray: set<Component>)
    requires Tables(g, t, gray + {node}) && s.stack <= t.stack && gray <= Elems(s.stack)
    ensures Tables(g, Popped(t, |s.stack|), gray)
    ensures gray !! Elems(t.stack[|s.stack|..])
  {
    assert s.stack == t.stack[..|s.stack|];
    PoppedSets(t, |s.stack|);
  }

  lemma SegmentMembers(t: State, base: nat)
    requires base <= |t.stack|
    ensures forall v :: v in Reversed(t.stack[base..]) <==> v in Elems(t.stack[base..])
    ensures Elems(t.stack[base..]) <= Elems(t.stack)
  {
    var c := Reversed(t.stack[base..]);
    ElemsReversed(t.stack[base..]);
    assert forall v :: v in c <==> v in Elems(c);
    assert t.stack == t.stack[..base] + t.stack[base..];
    ElemsSplit(t.stack[..base], t.stack[base..]);
    hide Elems, Reversed;
  }

  lemma ClosedExtends(g: Graph, sccs: seq<seq<Component>>, c: seq<Component>, seg: set<Component>)
    requires SccsOk(g, sccs) && IsScc(g, c) && Closed(g, seg + Done(sccs)) && seg !! Done(sccs)
    requires forall v :: v in c <==> v in seg
    ensures SccsOk(g, sccs + [c])
  {
    hide SccsOk, IsScc, Done, Edge;
    assert forall v :: v in c ==> v in seg;
    SccsExtend(g, sccs, c);
  }

  lemma PoppedSccs(g: Graph, t: State, node: Component, base: nat, gray: set<Component>)
    requires Inv(g, t, gray + {node}) && ScanLow(g, t, node, base, |Neighbors(g, node)|)
    requires t.low[node] == t.disc[node]
    requires gray !! Elems(t.stack[base..])
    ensures SccsOk(g, Popped(t, base).sccs)
  {
    InvMeans(g, t, gray + {node});
    ScanMeans(g, t, node, base, |Neighbors(g, node)|);
    hide *;
    SegmentClosed(g, t, node, base, gray);
    SegmentIsScc(g, t, node, base, gray);
    SegmentMembers(t, base);
    ClosedExtends(g, t.sccs, Reversed(t.stack[base..]), Elems(t.stack[base..]));
    PoppedLists(t, base);
  }

  lemma InvMeans(g: Graph, t: State, gray: set<Component>)
    requires Inv(g, t, gray)
    ensures StackNumbered(t) && StackOrdered(g, t) && AllLeadToGray(g, t, gray) && BlackExplored(g, t, gray)
    ensures SccsOk(g, t.sccs) && BackwardEdges(g, t.sccs)
    ensures Elems(t.stack) !! Done(t.sccs) && forall v :: v in t.disc ==> v in Done(t.sccs) || v in Elems(t.stack)
  {
  }

  lemma ScanMeans(g: Graph, t: State, node: Component, base: nat, k: nat)
    requires StackNumbered(t) && ScanLow(g, t, node, base, k)
    ensures base < |t.stack| && t.stack[base] == node && node in t.low && node in t.disc
  {
  }

  lemma PoppedLists(t: State, base: nat)
    requires base <= |t.stack|
    ensures Popped(t, base).sccs == t.sccs + [Reversed(t.stack[base..])]
  {
  }

  lemma ScanningStack(g: Graph, s: State, t: State, node: Component, gray: set<Component>, k: nat)
    requires Scanning(g, s, t, node, gray, k)
    ensures |s.stack| < |t.stack| && t.stack[|s.stack|] == node && t.inStack == Elems(t.stack) && Distinct(t.stack)
  {
    hide BlackExplored, StackOrdered, AllLeadToGray, SccsOk, LowBounds, LowReached, Processed, Reach;
    assert forall i, j :: 0 <= i < j < |t.stack| ==> t.disc[t.stack[i]] < t.disc[t.stack[j]];
  }

  /** Nothing on the stack has changed. */
  lemma SameStack(g: Graph, s: State, u: State, gray: set<Component>)
    requires u.stack == s.stack && StackOrdered(g, s) && AllLeadToGray(g, s, gray)
    ensures StackOrdered(g, u) && AllLeadToGray(g, u, gray)
  {
    forall j | 0 <= j < |u.stack|
      ensures LeadsToGray(g, u, gray, j)
    {
      assert LeadsToGray(g, s, gray, j);
    }
  }

  lemma PoppedBlack(g: Graph, t: State, u: State, node: Component, gray: set<Component>)
    requires BlackExplored(g, t, gray + {node}) && u.disc == t.disc
    requires forall v :: Edge(g, node, v) ==> v in t.disc
    ensures BlackExplored(g, u, gray)
  {
  }

  lemma PoppedGrows(s: State, t: State)
    requires Grows(s, t) && |s.stack| <= |t.stack|
    ensures Grows(s, Popped(t, |s.stack|)) && Popped(t, |s.stack|).stack == s.stack
  {
    hide Elems, Reversed;
  }

  lemma PoppedLow(g: Graph, t: State, node: Component, base: nat)
    requires StackNumbered(t) && base <= |t.stack| && node in t.disc && node in t.low && t.low[node] == t.disc[node]
    ensures StackNumbered(Popped(t, base)) && VisitedLow(g, Popped(t, base), node, base)
  {
    hide Elems, Reversed;
  }

  /** `node` is the first of its component: the stack from `node` up is popped and emitted. */
  lemma FinishPop(g: Graph, s: State, t: State, node: Component, gray: set<Component>)
    requires Inv(g, s, gray) && Scanning(g, s, t, node, gray, |Neighbors(g, node)|)
    requires node in t.low && node in t.disc && t.low[node] == t.disc[node]
    ensures Visited(g, s, Popped(t, |s.stack|), node, gray)
  {
    hide Tables, BlackExplored, StackOrdered, AllLeadToGray, SccsOk, Grows, ScanLow, VisitedLow, Popped;
    TablesMean(g, s, gray);
    TablesMean(g, t, gray + {node});
    GrowsMeans(s, t);
    var u := Popped(t, |s.stack|);
    PoppedTables(g, s, t, node, gray);
    PoppedGrows(s, t);
    PoppedDisc(t, |s.stack|);
    ScannedBounds(g, t, node, |s.stack|);
    PoppedBlack(g, t, u, node, gray);
    SameStack(g, s, u, gray);
    PoppedSccs(g, t, node, |s.stack|, gray);
    PoppedLow(g, t, node, |s.stack|);
  }

  lemma TablesMean(g: Graph, s: State, gray: set<Component>)
    requires Tables(g, s, gray)
    ensures StackNumbered(s) && gray <= Elems(s.stack) && s.inStack == Elems(s.stack)
  {
  }

  lemma GrowsMeans(s: State, t: State)
    requires Grows(s, t)
    ensures s.stack <= t.stack
  {
  }

  lemma PoppedDisc(t: State, base: nat)
    requires base <= |t.stack|
    ensures Popped(t, base).disc == t.disc
  {
  }

  lemma GrayReaches(g: Graph, gray: set<Component>, node: Component, nb: Component)
    requires Edge(g, node, nb) && forall x :: x in gray ==> Reach(g, x, node)
    ensures forall x :: x in gray + {node} ==> Reach(g, x, nb)
  {
    ReachEdge(g, node, nb);
    forall x | x in gray
      ensures Reach(g, x, nb)
    {
      ReachTrans(g, x, node, nb);
    }
  }

  lemma ScanningTables(g: Graph, s: State, t: State, node: Component, gray: set<Component>, k: nat)
    requires Scanning(g, s, t, node, gray, k)
    ensures node in t.disc && node in t.low && t.disc.Keys == t.low.Keys && t.disc.Keys <= Nodes(g)
    ensures t.inStack <= t.disc.Keys && StackNumbered(t) && t.disc[node] < t.time
    ensures Inv(g, t, gray + {node}) && Grows(s, t) && ScanLow(g, t, node, |s.stack|, k)
  {
  }

  lemma VisitedTables(g: Graph, s: State, t: State, node: Component, neighbor: Component, gray: set<Component>)
    requires Visited(g, s, t, neighbor, gray) && node in s.low
    ensures node in t.low && neighbor in t.low
  {
  }

  /** The variables shared by the calls of `tarjan_dfs`. */
  class SccSearch {
    const g: Graph
    var disc: map<Component, nat>
    var low: map<Component, nat>
    var stack: seq<Component>
    var inStack: set<Component>
    var time: nat
    var sccs: seq<seq<Component>>

    ghost function View(): State
      reads this
    {
      State(disc, low, stack, inStack, time, sccs)
    }

    constructor (g: Graph)
      ensures this.g == g && View() == State(map[], map[], [], {}, 0, [])
    {
      this.g := g;
      disc, low, stack, inStack, time, sccs := map[], map[], [], {}, 0, [];
    }

    method TarjanDfs(node: Component, ghost gray: set<Component>)
      requires Inv(g, View(), gray)
      requires node in Nodes(g) && node !in disc
      requires forall x :: x in gray ==> Reach(g, x, node)
      modifies this
      ensures Visited(g, old(View()), View(), node, gray)
      decreases Nodes(g) - disc.Keys, 0
    {
      ghost var s := View();
      Discover(node, gray);
      for k := 0 to |Neighbors(g, node)|
        invariant Scanning(g, s, View(), node, gray, k)
      {
        VisitNeighbor(node, k, s, gray);
      }
      Conclude(node, s, gray);
    }

    method Discover(node: Component, ghost gray: set<Component>)
      requires Inv(g, View(), gray)
      requires node in Nodes(g) && node !in disc
      requires forall x :: x in gray ==> Reach(g, x, node)
      modifies this
      ensures Scanning(g, old(View()), View(), node, gray, 0)
    {
      hide Inv, Scanning, Reach;
      PushStarts(g, View(), node, gray);
      disc, low := disc[node := time], low[node := time];
      time := time + 1;
      stack := stack + [node];
      inStack := inStack + {node};
    }

    /** One turn of the loop over the neighbours of `node`. */
    method VisitNeighbor(node: Component, k: nat, ghost s: State, ghost gray: set<Component>)
      requires Scanning(g, s, View(), node, gray, k) && k < |Neighbors(g, node)|
      requires node !in s.disc && node !in s.low
      requires forall x :: x in gray ==> Reach(g, x, node)
      modifies this
      ensures Scanning(g, s, View(), node, gray, k + 1)
      decreases Nodes(g) - disc.Keys, 1
    {
      hide Inv, ScanLow, Visited, VisitedLow, Grows;
      var neighbor := Neighbors(g, node)[k];
      ghost var t := View();
      ScanningTables(g, s, t, node, gray, k);
      if neighbor !in disc {
        assert Edge(g, node, neighbor);
        GrayReaches(g, gray, node, neighbor);
        TarjanDfs(neighbor, gray + {node});
        VisitedTables(g, t, View(), node, neighbor, gray + {node});
        ScanVisited(g, s, t, View(), node, gray, k);
        low := low[node := Min(low[node], low[neighbor])];
      } else if neighbor in inStack {
        ScanStacked(g, s, t, node, gray, k);
        low := low[node := Min(low[node], disc[neighbor])];
      } else {
        ScanLeft(g, s, t, node, gray, k);
      }
    }

    /** Emits the component of `node` if `node` is its first discovered member. */
    method Conclude(node: Component, ghost s: State, ghost gray: set<Component>)
      requires Inv(g, s, gray)
      requires Scanning(g, s, View(), node, gray, |Neighbors(g, node)|)
      modifies this
      ensures Visited(g, s, View(), node, gray)
    {
      hide Inv, Scanning, Visited, Reach;
      ghost var t := View();
      ScanningTables(g, s, t, node, gray, |Neighbors(g, node)|);
      ScanningStack(g, s, t, node, gray, |Neighbors(g, node)|);
      if low[node] == disc[node] {
        FinishPop(g, s, t, node, gray);
        var scc := PopUntil(node, |s.stack|);
        sccs := sccs + [scc];
        assert View() == Popped(t, |s.stack|);
      } else {
        FinishKeep(g, s, t, node, gray);
      }
    }

    /** Pops the stack down to and including `node`, which lies at position `base`. */
    method PopUntil(node: Component, ghost base: nat) returns (scc: seq<Component>)
      requires base < |stack| && stack[base] == node
      requires Distinct(stack) && inStack == Elems(stack)
      modifies this`stack, this`inStack
      ensures stack == old(stack)[..base]
      ensures inStack == old(inStack) - Elems(old(stack)[base..])
      ensures scc == Reversed(old(stack)[base..])
    {
      scc := [];
      while true
        invariant base < |stack| && stack == old(stack)[..|stack|]
        invariant inStack == old(inStack) - Elems(old(stack)[|stack|..])
        invariant scc == Reversed(old(stack)[|stack|..])
        decreases |stack|
      {
        var top := stack[|stack| - 1];
        ghost var rest := old(stack)[|stack|..];
        stack := stack[..|stack| - 1];
        assert old(stack)[|stack|..] == [top] + rest;
        ElemsSplit([top], rest);
        inStack := inStack - {top};
        scc := scc + [top];
        if top == node {
          break;
        }
      }
    }
  }

  lemma EmptySearch(g: Graph)
    ensures Inv(g, State(map[], map[], [], {}, 0, []), {})
  {
  }

  /** When every call has returned nothing is gray, so the stack is empty and all discovered nodes are emitted. */
  lemma SearchDone(g: Graph, s: State)
    requires Inv(g, s, {})
    ensures s.stack == [] && s.disc.Keys == Done(s.sccs)
  {
    assert |s.stack| > 0 ==> LeadsToGray(g, s, {}, 0);
  }

  lemma SearchKeeps(s: State, t: State, nodes: seq<Component>, i: nat)
    requires Grows(s, t) && i < |nodes| && nodes[i] in t.disc
    requires forall j :: 0 <= j < i ==> nodes[j] in s.disc
    ensures forall j :: 0 <= j < i + 1 ==> nodes[j] in t.disc
  {
  }

  /** `Workflow._find_sccs`, for any order of the node list. */
  method FindSccs(g: Graph, nodes: seq<Component>) returns (sccs: seq<seq<Component>>)
    requires IsEnumeration(nodes, Nodes(g))
    ensures IsSccDecomposition(g, sccs)
  {
    hide Inv, Visited, Grows, IsSccDecomposition, IsEnumeration, Reach;
    var search := new SccSearch(g);
    EmptySearch(g);
    for i := 0 to |nodes|
      invariant search.g == g
      invariant Inv(g, search.View(), {})
      invariant forall j :: 0 <= j < i ==> nodes[j] in search.View().disc
    {
      EnumeratedNode(g, nodes, i);
      if nodes[i] !in search.disc {
        ghost var s := search.View();
        search.TarjanDfs(nodes[i], {});
        VisitedFound(g, s, search.View(), nodes[i]);
        SearchKeeps(s, search.View(), nodes, i);
      }
    }
    SearchEnds(g, search.View(), nodes);
    sccs := search.sccs;
  }

  lemma EnumeratedNode(g: Graph, nodes: seq<Component>, i: nat)
    requires IsEnumeration(nodes, Nodes(g)) && i < |nodes|
    ensures nodes[i] in Nodes(g)
  {
    assert nodes[i] in nodes;
  }

  lemma VisitedFound(g: Graph, s: State, t: State, node: Component)
    requires Visited(g, s, t, node, {})
    ensures Inv(g, t, {}) && Grows(s, t) && node in t.disc
  {
    hide Inv, Grows;
  }

  lemma SearchEnds(g: Graph, s: State, nodes: seq<Component>)
    requires IsEnumeration(nodes, Nodes(g)) && Inv(g, s, {}) && forall j :: 0 <= j < |nodes| ==> nodes[j] in s.disc
    ensures IsSccDecomposition(g, s.sccs)
  {
    SearchDone(g, s);
    AllFound(g, s, nodes);
    hide SccsOk, IsEnumeration;
  }

  lemma AllFound(g: Graph, s: State, nodes: seq<Component>)
    requires IsEnumeration(nodes, Nodes(g)) && s.disc.Keys <= Nodes(g)
    requires forall j :: 0 <= j < |nodes| ==> nodes[j] in s.disc
    ensures s.disc.Keys == Nodes(g)
  {
    forall v | v in Nodes(g)
      ensures v in s.disc
    {
      assert v in nodes;
    }
  }
}
