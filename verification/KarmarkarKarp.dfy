/** `karmarkar_karp` and `get_seqlen_balanced_partitions` over mutable sets and states. */
module KarmarkarKarp {
  import opened Wrappers
  import opened Arithmetic
  import opened Sorting
  import opened Partitions
  import opened Differencing

  /** The class `Set`. */
  class PartSet {
    var sum: nat
    var items: seq<Item>

    ghost function View(): Part
      reads this
    {
      Part(sum, items)
    }

    constructor ()
      ensures View() == Empty
    {
      sum, items := 0, [];
    }

    method Add(idx: nat, val: nat)
      modifies this
      ensures View() == PartAdd(old(View()), Item(idx, val))
    {
      items := items + [Item(idx, val)];
      sum := sum + val;
    }

    method Merge(other: PartSet)
      requires other != this
      modifies this
      ensures View() == PartMerge(old(View()), other.View())
    {
      for i := 0 to |other.items|
        invariant items == old(items) + other.items[..i]
        invariant sum + TotalLen(other.items[i..]) == old(sum) + TotalLen(other.items)
        invariant other.items == old(other.items)
      {
        assert other.items[i..][1..] == other.items[i + 1..];
        items := items + [other.items[i]];
        sum := sum + other.items[i].len;
      }
      assert other.items[..|other.items|] == other.items;
    }
  }

  /** A set with a snapshot of its value: the key `sorted` compares. */
  datatype Keyed = Keyed(part: Part, obj: PartSet)

  function InsertKeyed(x: Keyed, s: seq<Keyed>): (r: seq<Keyed>)
    ensures |r| == |s| + 1
    ensures forall y :: y in r ==> y == x || y in s
    ensures multiset(Objects(r)) == multiset(Objects(s)) + multiset{x.obj}
    ensures Parts(r) == Insert(PartGreater, x.part, Parts(s))
  {
    KeyedFirst(x, s);
    if s == [] || !PartGreater(s[0].part, x.part) then [x] + s
    else
      var rest := InsertKeyed(x, s[1..]);
      InsertedKeyed(x, s, rest);
      [s[0]] + rest
  }

  lemma InsertedKeyed(x: Keyed, s: seq<Keyed>, rest: seq<Keyed>)
    requires s != [] && PartGreater(s[0].part, x.part)
    requires forall y :: y in rest ==> y == x || y in s[1..]
    requires multiset(Objects(rest)) == multiset(Objects(s[1..])) + multiset{x.obj}
    requires Parts(rest) == Insert(PartGreater, x.part, Parts(s[1..]))
    ensures forall y :: y in [s[0]] + rest ==> y == x || y in s
    ensures multiset(Objects([s[0]] + rest)) == multiset(Objects(s)) + multiset{x.obj}
    ensures Parts([s[0]] + rest) == Insert(PartGreater, x.part, Parts(s))
  {
    KeyedFirst(s[0], s[1..]);
    KeyedFirst(s[0], rest);
    assert s == [s[0]] + s[1..];
    hide Objects, Parts, PartGreater;
    InsertBehind(x.part, s[0].part, Parts(s[1..]));
  }

  lemma InsertBehind(x: Part, first: Part, rest: seq<Part>)
    requires PartGreater(first, x)
    ensures Insert(PartGreater, x, [first] + rest) == [first] + Insert(PartGreater, x, rest)
  {
    hide PartGreater;
    assert ([first] + rest)[1..] == rest;
  }

  lemma KeyedFirst(x: Keyed, s: seq<Keyed>)
    ensures Parts([x] + s) == [x.part] + Parts(s) && Objects([x] + s) == [x.obj] + Objects(s)
    ensures multiset(Objects([x] + s)) == multiset(Objects(s)) + multiset{x.obj}
  {
  }

  function SortKeyed(s: seq<Keyed>): (r: seq<Keyed>)
    ensures |r| == |s|
    ensures forall y :: y in r ==> y in s
    ensures multiset(Objects(r)) == multiset(Objects(s))
    ensures Parts(r) == SortDescending(Parts(s))
  {
    if s == [] then []
    else
      KeyedFirst(s[0], s[1..]);
      assert s == [s[0]] + s[1..];
      InsertKeyed(s[0], SortKeyed(s[1..]))
  }

  function Objects(s: seq<Keyed>): (r: seq<PartSet>)
    ensures |r| == |s|
  {
    seq(|s|, i requires 0 <= i < |s| => s[i].obj)
  }

  function Parts(s: seq<Keyed>): (r: seq<Part>)
    ensures |r| == |s|
  {
    seq(|s|, i requires 0 <= i < |s| => s[i].part)
  }

  lemma PermutedDistinct(a: seq<PartSet>, b: seq<PartSet>)
    requires DistinctSets(a) && multiset(a) == multiset(b)
    ensures DistinctSets(b)
    ensures forall x :: x in a <==> x in b
  {
    forall x
      ensures x in a <==> x in b
    {
      assert x in multiset(a) <==> x in multiset(b);
    }
    forall i, j | 0 <= i < j < |b|
      ensures b[i] != b[j]
    {
      DistinctOnce(a, b[i]);
      assert b == b[..i] + [b[i]] + b[i + 1..j] + [b[j]] + b[j + 1..];
    }
  }

  lemma DistinctOnce(a: seq<PartSet>, x: PartSet)
    requires DistinctSets(a)
    ensures multiset(a)[x] <= 1
  {
    if x in a {
      var i := PlaceOf(a, x);
      assert a == a[..i] + [x] + a[i + 1..];
      assert x !in a[..i] && x !in a[i + 1..];
      hide DistinctSets;
    }
  }

  lemma PlaceOf(a: seq<PartSet>, x: PartSet) returns (i: nat)
    requires x in a
    ensures i < |a| && a[i] == x
  {
    i :| 0 <= i < |a| && a[i] == x;
  }

  ghost predicate DistinctSets(s: seq<PartSet>) {
    forall i, j :: 0 <= i < j < |s| ==> s[i] != s[j]
  }

  /** The class `State`. */
  class State {
    const k: nat
    var sets: seq<PartSet>

    ghost predicate Valid()
      reads this
    {
      |sets| == k > 0 && DistinctSets(sets)
    }

    ghost function View(): (r: seq<Part>)
      reads this, sets
      ensures |r| == |sets|
    {
      seq(|sets|, i requires 0 <= i < |sets| reads this, sets => sets[i].View())
    }

    /** `State(items, k)`; a list of any other length than 1 or `k` is refused, which no caller passes. */
    constructor (items: seq<Item>, k: nat)
      requires k > 0 && (|items| == 1 || |items| == k)
      ensures Valid() && this.k == k && fresh(sets)
      ensures View() == NewState(items, k)
    {
      this.k := k;
      this.sets := [];
      new;
      for i := 0 to k
        invariant |sets| == i && DistinctSets(sets) && fresh(sets)
        invariant forall j :: 0 <= j < i ==> sets[j].View() == if j < |items| then PartAdd(Empty, items[j]) else Empty
      {
        var s := new PartSet();
        if i < |items| {
          s.Add(items[i].idx, items[i].len);
        }
        sets := sets + [s];
      }
      assert View() == Filled(items, k);
      ghost var before := sets;
      SortSets();
      PermutedDistinct(before, sets);
      assert forall i :: 0 <= i < |sets| ==> sets[i] in before;
    }

    /** `self.sets = sorted(self.sets, reverse=True)`. */
    method SortSets()
      requires Valid()
      modifies this`sets
      ensures Valid() && multiset(sets) == multiset(old(sets))
      ensures View() == SortDescending(old(View()))
    {
      var keyed :=
        seq(|sets|, i requires 0 <= i < |sets| reads this, sets => Keyed(Part(sets[i].sum, sets[i].items), sets[i]));
      var sorted := SortKeyed(keyed);
      assert Parts(keyed) == View() && Objects(keyed) == sets;
      sets := Objects(sorted);
      PermutedDistinct(old(sets), sets);
      forall i | 0 <= i < |sets|
        ensures sets[i].View() == sorted[i].part
      {
        assert sorted[i] in keyed;
      }
      assert View() == Parts(sorted);
    }

    /** `merge`: the i-th largest set takes in the i-th smallest of the other state. */
    method Merge(other: State)
      requires Valid() && other.Valid() && other != this && other.k == k
      requires forall x, y :: x in sets && y in other.sets ==> x != y
      modifies this`sets, sets
      ensures Valid() && multiset(sets) == multiset(old(sets))
      ensures View() == MergeStates(old(View()), other.View())
      ensures other.View() == old(other.View())
    {
      CrossSets(other);
      SortSets();
    }

    method CrossSets(other: State)
      requires Valid() && other.Valid() && other != this && other.k == k
      requires forall x, y :: x in sets && y in other.sets ==> x != y
      modifies sets
      ensures View() == Crossed(old(View()), other.View())
      ensures other.View() == old(other.View())
    {
      hide PartMerge, Crossed;
      ghost var s, t := View(), other.View();
      for i := 0 to k
        invariant other.View() == t
        invariant forall j :: 0 <= j < i ==> sets[j].View() == PartMerge(s[j], t[k - 1 - j])
        invariant forall j :: i <= j < k ==> sets[j].View() == s[j]
      {
        CrossOne(other, i);
      }
      assert forall j :: 0 <= j < k ==> View()[j] == sets[j].View();
      CrossedIs(s, t, View());
    }

    method CrossOne(other: State, i: nat)
      requires Valid() && other.Valid() && other != this && other.k == k && i < k
      requires forall x, y :: x in sets && y in other.sets ==> x != y
      modifies sets[i]
      ensures sets[i].View() == PartMerge(old(sets[i].View()), other.View()[k - 1 - i])
      ensures other.View() == old(other.View())
    {
      hide PartMerge;
      forall j | 0 <= j < k
        ensures sets[i] != other.sets[j]
      {
        assert sets[i] in sets && other.sets[j] in other.sets;
      }
      sets[i].Merge(other.sets[k - 1 - i]);
      assert forall j :: 0 <= j < k ==> other.sets[j].View() == old(other.sets[j].View());
    }

    /** `get_partitions`. */
    method GetPartitions() returns (partitions: seq<seq<nat>>)
      requires Valid()
      ensures partitions == IndexLists(View())
    {
      partitions := [];
      for i := 0 to |sets|
        invariant |partitions| == i
        invariant forall g :: 0 <= g < i ==> partitions[g] == Indices(sets[g].items)
      {
        var curPartition: seq<nat> := [];
        for j := 0 to |sets[i].items|
          invariant curPartition == Indices(sets[i].items)[..j]
        {
          curPartition := curPartition + [sets[i].items[j].idx];
        }
        partitions := partitions + [curPartition];
      }
      assert forall g :: 0 <= g < |sets| ==> IndexLists(View())[g] == Indices(sets[g].items);
    }

    /** `__lt__`: the wider spread first, then the larger first set. */
    predicate Less(other: State): (r: bool)
      requires |sets| > 0 && |other.sets| > 0
      reads this, sets, other, other.sets
      ensures r == StateLess(View(), other.View())
    {
      var spread := sets[0].sum - sets[|sets| - 1].sum;
      var otherSpread := other.sets[0].sum - other.sets[|other.sets| - 1].sum;
      if spread != otherSpread then spread > otherSpread
      else PartLess(Part(other.sets[0].sum, other.sets[0].items), Part(sets[0].sum, sets[0].items))
    }
  }

  lemma CrossedIs(s: seq<Part>, t: seq<Part>, r: seq<Part>)
    requires |s| == |t| == |r| && forall j :: 0 <= j < |s| ==> r[j] == PartMerge(s[j], t[|s| - 1 - j])
    ensures r == Crossed(s, t)
  {
    hide PartMerge;
  }

  function Footprint(states: seq<State>): set<object>
    reads states
  {
    set st, o | st in states && o in st.sets :: o
  }

  /** The states on the heap with their values `v`; no two of them share a set. */
  ghost predicate Holds(states: seq<State>, v: seq<seq<Part>>, k: nat)
    reads states, Footprint(states)
  {
    && |v| == |states|
    && (forall i :: 0 <= i < |states| ==>
      states[i].Valid() && states[i].k == k && HasView(states[i], v[i], Footprint(states)))
    && (forall i, j :: 0 <= i < j < |states| ==> Apart(states[i], states[j]))
  }

  ghost predicate HasView(st: State, v: seq<Part>, footprint: set<object>)
    requires forall o :: o in st.sets ==> o in footprint
    reads st, footprint
  {
    st.View() == v
  }

  ghost predicate Apart(a: State, b: State)
    reads a, b
  {
    a != b && forall x, y :: x in a.sets && y in b.sets ==> x != y
  }

  /** `heappop`: the position of a least state. */
  method Least(states: seq<State>, ghost v: seq<seq<Part>>, k: nat) returns (best: nat)
    requires Holds(states, v, k) && |states| > 0
    ensures best < |states| && forall j :: 0 <= j < |v| ==> !StateLess(v[j], v[best])
  {
    hide StateLess;
    best := 0;
    for i := 0 to |states|
      invariant best < |states|
      invariant forall j :: 0 <= j < i ==> !StateLess(v[j], v[best])
    {
      if states[i].Less(states[best]) {
        forall j | 0 <= j < i
          ensures !StateLess(v[j], v[i])
        {
          StateLessOrder(v[i], v[j], v[best]);
        }
        best := i;
      }
      StateLessOrder(v[i], v[i], v[best]);
    }
  }

  /** `st` is a state with value `v` that shares nothing with `rest`. */
  ghost predicate Outside(st: State, v: seq<Part>, rest: seq<State>, k: nat)
    reads st, st.sets, rest, Footprint(rest)
  {
    && st.Valid() && st.k == k && st.View() == v
    && st !in rest
    && forall x :: x in st.sets ==> x !in Footprint(rest)
  }

  /** `heappop`. */
  method Pop(states: seq<State>, ghost v: seq<seq<Part>>, k: nat)
    returns (st: State, rest: seq<State>, ghost stV: seq<Part>, ghost restV: seq<seq<Part>>, ghost i: nat)
    requires Holds(states, v, k) && |states| > 0
    ensures st in states && |rest| == |states| - 1 && forall other :: other in rest ==> other in states
    ensures |v| == |states| && i < |states| && st == states[i] && stV == v[i]
    ensures rest == Removed(states, i) && restV == Removed(v, i)
    ensures Sized(v, k) && IsLeast(v, k, i)
    ensures Holds(rest, restV, k) && Outside(st, stV, rest, k)
  {
    HoldsSized(states, v, k);
    var p := Least(states, v, k);
    i := p;
    st := states[p];
    rest := Removed(states, p);
    stV, restV := v[p], Removed(v, p);
    WithoutHolds(states, v, k, p);
  }

  lemma HoldsSized(states: seq<State>, v: seq<seq<Part>>, k: nat)
    requires Holds(states, v, k) && |states| > 0
    ensures |v| == |states| && Sized(v, k)
  {
    forall i | 0 <= i < |v|
      ensures |v[i]| == k > 0
    {
      assert HasView(states[i], v[i], Footprint(states));
    }
    assert |v[0]| == k;
  }

  lemma WithoutHolds(states: seq<State>, v: seq<seq<Part>>, k: nat, i: nat)
    requires Holds(states, v, k) && i < |states|
    ensures |v| == |states| && Holds(Removed(states, i), Removed(v, i), k)
    ensures Outside(states[i], v[i], Removed(states, i), k)
  {
    var rest := Removed(states, i);
    assert forall j :: 0 <= j < |rest| ==> rest[j] == states[if j < i then j else j + 1];
    forall x | x in states[i].sets
      ensures x !in Footprint(rest)
    {
      forall st | st in rest
        ensures x !in st.sets
      {
        var j :| 0 <= j < |rest| && rest[j] == st;
        assert Apart(states[i], st) || Apart(st, states[i]);
      }
    }
  }

  lemma PushHolds(rest: seq<State>, restV: seq<seq<Part>>, st: State, stV: seq<Part>, k: nat)
    requires Holds(rest, restV, k) && Outside(st, stV, rest, k)
    ensures Holds(rest + [st], restV + [stV], k)
  {
    forall j | 0 <= j < |rest|
      ensures Apart(rest[j], st)
    {
      assert rest[j] in rest;
      forall x, y | x in rest[j].sets && y in st.sets
        ensures x != y
      {
        assert x in Footprint(rest);
      }
    }
    var all := rest + [st];
    forall i | 0 <= i < |all|
      ensures all[i].Valid() && all[i].k == k && HasView(all[i], (restV + [stV])[i], Footprint(all))
    {
      assert all[i] in all;
    }
  }

  lemma InFootprint(states: seq<State>, st: State)
    requires st in states
    ensures forall x :: x in st.sets ==> x in Footprint(states)
  {
  }

  lemma FootprintShrinks(rest: seq<State>, states: seq<State>)
    requires forall st :: st in rest ==> st in states
    ensures Footprint(rest) <= Footprint(states)
  {
  }

  /** The second state takes no part in the changes to the first. */
  method Absorb(state0: State, ghost v0: seq<Part>, state1: State, ghost v1: seq<Part>, rest: seq<State>,
      ghost restV: seq<seq<Part>>, k: nat)
    requires Outside(state0, v0, rest, k) && Outside(state1, v1, rest, k) && Holds(rest, restV, k)
    requires state0 != state1 && forall x, y :: x in state0.sets && y in state1.sets ==> x != y
    modifies state0`sets, state0.sets
    ensures Outside(state0, MergeStates(v0, v1), rest, k) && Holds(rest, restV, k)
    ensures Footprint(rest) == old(Footprint(rest))
    ensures forall x :: x in state0.sets ==> x in old(state0.sets)
  {
    hide MergeStates;
    ghost var before := state0.sets;
    state0.Merge(state1);
    SameSets(before, state0.sets);
    assert Footprint(rest) == old(Footprint(rest));
    assert state0.View() == MergeStates(v0, v1);
    assert forall i :: 0 <= i < |rest| ==> rest[i].sets == old(rest[i].sets);
    assert forall x :: x in Footprint(rest) ==> x !in before;
    assert Holds(rest, restV, k);
  }

  lemma SameSets(a: seq<PartSet>, b: seq<PartSet>)
    requires multiset(a) == multiset(b)
    ensures forall x :: x in a <==> x in b
  {
    assert forall x :: x in a <==> x in multiset(a);
    assert forall x :: x in b <==> x in multiset(b);
  }

  lemma RestApart(states: seq<State>, st: State, v: seq<Part>, k: nat, other: State)
    requires Outside(st, v, states, k) && other in states
    ensures st != other && forall x, y :: x in st.sets && y in other.sets ==> x != y
  {
    InFootprint(states, other);
  }

  lemma OutsideLess(st: State, v: seq<Part>, states: seq<State>, rest: seq<State>, k: nat)
    requires Outside(st, v, states, k) && forall s :: s in rest ==> s in states
    ensures Outside(st, v, rest, k)
  {
    FootprintShrinks(rest, states);
  }

  /** One turn of the merging loop: two successively least states are popped, merged and pushed back as one. */
  method MergeTwo(states: seq<State>, ghost v: seq<seq<Part>>, k: nat)
    returns (states': seq<State>, ghost i: nat, ghost j: nat)
    requires Holds(states, v, k) && |states| > 1
    modifies states, Footprint(states)
    ensures Sized(v, k) && IsStep(v, k, i, j) && |states'| == |states| - 1 == |v| - 1
    ensures i < |v| && j < |v| - 1 && Holds(states', Next(v, k, i, j), k)
    ensures forall st :: st in states' ==> st in states
    ensures Footprint(states') <= old(Footprint(states))
  {
    hide Holds, Outside, Footprint, MergeStates, StateLess, IsLeast;
    ghost var v0, v1, rest0V, restV;
    var state0, state1, rest0, rest;
    state0, rest0, v0, rest0V, i := Pop(states, v, k);
    state1, rest, v1, restV, j := Pop(rest0, rest0V, k);
    assert state0 in states && state1 in rest0;
    assert forall st :: st in rest0 ==> st in states;
    assert forall st :: st in rest ==> st in rest0;
    RestApart(rest0, state0, v0, k, state1);
    OutsideLess(state0, v0, rest0, rest, k);
    InFootprint(states, state0);
    FootprintShrinks(rest, states);
    Absorb(state0, v0, state1, v1, rest, restV, k);
    states' := rest + [state0];
    PushHolds(rest, restV, state0, MergeStates(v0, v1), k);
    FootprintPushed(rest, state0);
  }

  lemma FootprintPushed(rest: seq<State>, st: State)
    ensures Footprint(rest + [st]) == Footprint(rest) + set x | x in st.sets :: x
  {
  }

  /** Tuples `(seqlen, idx)` compare by length first. */
  predicate SeqlenLess(a: Item, b: Item) {
    a.len < b.len || (a.len == b.len && a.idx < b.idx)
  }

  /** `sorted([(seqlen, i) for i, seqlen in enumerate(seqlen_list)])`. */
  function SortedItems(lens: seq<nat>): (r: seq<Item>)
    ensures |r| == |lens|
  {
    SortBy(SeqlenLess, Items(lens))
  }

  /** The items each initial state is made of: `count` blocks of `size` neighbours in sorted order. */
  function Blocks(sorted: seq<Item>, size: nat, count: nat): (r: seq<seq<Item>>)
    requires |sorted| == count * size
    ensures |r| == count && forall i :: 0 <= i < |r| ==> |r[i]| == size
  {
    if count == 0 then []
    else
      TimesNext(count - 1, size);
      [sorted[..size]] + Blocks(sorted[size..], size, count - 1)
  }

  function AllItems(blocks: seq<seq<Item>>): multiset<Item> {
    if blocks == [] then multiset{} else multiset(blocks[0]) + AllItems(blocks[1..])
  }

  lemma NoBlocks(sorted: seq<Item>, size: nat)
    requires |sorted| == 0
    ensures AllItems(Blocks(sorted, size, 0)) == multiset(sorted)
  {
  }

  lemma BlocksSplit(sorted: seq<Item>, size: nat, count: nat)
    requires |sorted| == count * size && count > 0
    ensures size <= |sorted| && |sorted[size..]| == (count - 1) * size
    ensures AllItems(Blocks(sorted, size, count))
      == multiset(sorted[..size]) + AllItems(Blocks(sorted[size..], size, count - 1))
  {
    TimesNext(count - 1, size);
    var first, rest := sorted[..size], Blocks(sorted[size..], size, count - 1);
    assert Blocks(sorted, size, count) == [first] + rest;
    hide Blocks;
    assert ([first] + rest)[1..] == rest;
  }

  lemma {:induction false} BlocksKeepItems(sorted: seq<Item>, size: nat, count: nat)
    requires |sorted| == count * size
    ensures AllItems(Blocks(sorted, size, count)) == multiset(sorted)
  {
    hide *;
    if count == 0 {
      NoBlocks(sorted, size);
    } else {
      BlocksSplit(sorted, size, count);
      BlocksKeepItems(sorted[size..], size, count - 1);
      assert sorted == sorted[..size] + sorted[size..];
    }
  }

  /** The longest difference within a block, or the longest item when `k` sets share single items. */
  function BlockRange(block: seq<Item>, k: nat): nat {
    if |block| < k then MaxLen(block) else MaxLen(block) - MinLen(block)
  }

  function MaxLen(items: seq<Item>): (m: nat)
    ensures forall i :: 0 <= i < |items| ==> items[i].len <= m
  {
    if items == [] then 0 else
      var rest := MaxLen(items[1..]);
      if items[0].len > rest then items[0].len else rest
  }

  function MinLen(items: seq<Item>): (m: nat)
    ensures forall i :: 0 <= i < |items| ==> m <= items[i].len
    ensures m <= MaxLen(items)
  {
    if items == [] then 0
    else if |items| == 1 then items[0].len
    else
      var rest := MinLen(items[1..]);
      if items[0].len < rest then items[0].len else rest
  }

  function WidestBlock(blocks: seq<seq<Item>>, k: nat): (w: nat)
    ensures forall i :: 0 <= i < |blocks| ==> BlockRange(blocks[i], k) <= w
  {
    if blocks == [] then 0 else
      var rest := WidestBlock(blocks[1..], k);
      if BlockRange(blocks[0], k) > rest then BlockRange(blocks[0], k) else rest
  }

  /** Parts of equal size need a number of items that `k` divides. */
  predicate Fits(n: nat, k: nat, equalSize: bool)
    requires k > 0
  {
    equalSize ==> n % k == 0
  }

  /** The call `karmarkar_karp` returns exactly when there are items, a part to put them in, and a fitting division. */
  predicate Balances(n: nat, k: nat, equalSize: bool) {
    n > 0 && k > 0 && Fits(n, k, equalSize)
  }

  lemma DivisionFits(n: nat, k: nat)
    requires k > 0
    ensures n % k == 0 ==> n == n / k * k
    ensures n % k == 0 && n > 0 ==> n / k > 0
  {
  }

  /** What `karmarkar_karp` starts from: blocks of `k` when parts must be of equal size, else single items. */
  function InitialBlocks(lens: seq<nat>, k: nat, equalSize: bool): (r: seq<seq<Item>>)
    requires k > 0 && Fits(|lens|, k, equalSize)
    ensures |lens| > 0 ==> |r| > 0
    ensures forall i :: 0 <= i < |r| ==> |r[i]| == if equalSize then k else 1
  {
    DivisionFits(|lens|, k);
    if equalSize then Blocks(SortedItems(lens), k, |lens| / k) else Blocks(SortedItems(lens), 1, |lens|)
  }

  /** How far apart the sums of two parts may end up. */
  function SpreadBound(lens: seq<nat>, k: nat, equalSize: bool): nat
    requires k > 0 && Fits(|lens|, k, equalSize)
  {
    WidestBlock(InitialBlocks(lens, k, equalSize), k)
  }

  /** The heap before the first merge. */
  function InitialStates(lens: seq<nat>, k: nat, equalSize: bool): (v: seq<seq<Part>>)
    requires k > 0 && Fits(|lens|, k, equalSize)
    ensures Sized(v, k) && (|lens| > 0 ==> |v| > 0)
  {
    var blocks := InitialBlocks(lens, k, equalSize);
    seq(|blocks|, i requires 0 <= i < |blocks| => NewState(blocks[i], k))
  }

  /** The parts of largest differencing. */
  function Differenced(lens: seq<nat>, k: nat, equalSize: bool): (parts: seq<seq<nat>>)
    requires Balances(|lens|, k, equalSize)
    ensures |parts| == k
  {
    IndexLists(Settled(InitialStates(lens, k, equalSize), k))
  }

  lemma {:induction false} PoolBagBlocks(v: seq<seq<Part>>, blocks: seq<seq<Item>>, k: nat)
    requires |v| == |blocks|
    requires forall i :: 0 <= i < |v| ==> Bag(v[i]) == multiset(blocks[i])
    ensures PoolBag(v) == AllItems(blocks)
  {
    if v != [] {
      PoolBagBlocks(v[1..], blocks[1..], k);
    }
  }

  lemma InitialPool(lens: seq<nat>, k: nat, equalSize: bool)
    requires Balances(|lens|, k, equalSize)
    ensures var v := InitialStates(lens, k, equalSize);
      PoolOk(v, k, SpreadBound(lens, k, equalSize), equalSize) && PoolBag(v) == multiset(Items(lens)) && Separate(v, k)
  {
    var v, blocks, d := InitialStates(lens, k, equalSize), InitialBlocks(lens, k, equalSize),
      SpreadBound(lens, k, equalSize);
    assert |v| == |blocks| && forall i :: 0 <= i < |v| ==> v[i] == NewState(blocks[i], k);
    WidestIsBound(lens, k, equalSize);
    hide StateOk, Even, Spread, NewState, Bag, SortedItems, InitialBlocks, InitialStates, SpreadBound, BlockRange,
      PoolBag, AllItems, Once;
    forall i | 0 <= i < |v|
      ensures PooledOk(v[i], k, d, equalSize) && Bag(v[i]) == multiset(blocks[i]) && InUse(v[i], k)
    {
      var block := blocks[i];
      assert BlockRange(block, k) <= d;
      BlockDifferences(block, k, d);
      NewStateOk(block, k, d);
      StateSize(v[i], k);
    }
    PoolBagBlocks(v, blocks, k);
    InitialItems(lens, k, equalSize);
    ItemsAreOnce(lens);
  }

  lemma ItemsAreOnce(lens: seq<nat>)
    ensures Once(multiset(Items(lens)))
  {
    forall x
      ensures multiset(Items(lens))[x] <= 1
    {
      if x in Items(lens) {
        ItemsOnce(lens, x.idx);
      }
    }
  }

  lemma WidestIsBound(lens: seq<nat>, k: nat, equalSize: bool)
    requires k > 0 && Fits(|lens|, k, equalSize)
    ensures forall i :: 0 <= i < |InitialBlocks(lens, k, equalSize)| ==>
      BlockRange(InitialBlocks(lens, k, equalSize)[i], k) <= SpreadBound(lens, k, equalSize)
    ensures forall i :: 0 <= i < |InitialBlocks(lens, k, equalSize)| ==> 0 < |InitialBlocks(lens, k, equalSize)[i]| <= k
  {
  }

  lemma SortedItemsKeep(lens: seq<nat>)
    ensures multiset(SortedItems(lens)) == multiset(Items(lens))
  {
    SortByMultiset(SeqlenLess, Items(lens));
  }

  lemma InitialItems(lens: seq<nat>, k: nat, equalSize: bool)
    requires k > 0 && Fits(|lens|, k, equalSize)
    ensures AllItems(InitialBlocks(lens, k, equalSize)) == multiset(Items(lens))
  {
    hide AllItems, Blocks, SortBy, Items;
    SortedItemsKeep(lens);
    DivisionFits(|lens|, k);
    if equalSize {
      BlocksKeepItems(SortedItems(lens), k, |lens| / k);
    } else {
      BlocksKeepItems(SortedItems(lens), 1, |lens|);
    }
  }

  lemma BlockDifferences(block: seq<Item>, k: nat, d: nat)
    requires BlockRange(block, k) <= d
    ensures forall i, j :: 0 <= i < |block| && 0 <= j < |block| ==> block[i].len - block[j].len <= d
    ensures |block| < k ==> forall i :: 0 <= i < |block| ==> block[i].len <= d
  {
  }

  /** `heappush` of a new state. */
  method PushNew(states: seq<State>, ghost v: seq<seq<Part>>, items: seq<Item>, k: nat) returns (states': seq<State>)
    requires Holds(states, v, k) && k > 0 && (|items| == 1 || |items| == k)
    ensures Holds(states', v + [NewState(items, k)], k)
    ensures |states'| == |states| + 1
    ensures forall st :: st in states' ==> st in states || fresh(st)
    ensures forall o :: o in Footprint(states') ==> o in old(Footprint(states)) || fresh(o)
  {
    hide NewState, HasView;
    var st := new State(items, k);
    assert Outside(st, st.View(), states, k);
    PushHolds(states, v, st, st.View(), k);
    FootprintPushed(states, st);
    states' := states + [st];
  }

  lemma NothingHeld(k: nat)
    ensures Holds([], [], k) && Footprint([]) == {}
  {
  }

  /** One state per block. */
  method FillHeap(blocks: seq<seq<Item>>, k: nat) returns (states: seq<State>, ghost v: seq<seq<Part>>)
    requires k > 0 && forall i :: 0 <= i < |blocks| ==> |blocks[i]| == 1 || |blocks[i]| == k
    ensures |states| == |blocks| && (forall st :: st in states ==> fresh(st)) && fresh(Footprint(states))
    ensures Holds(states, v, k)
    ensures |v| == |blocks| && forall i :: 0 <= i < |v| ==> v[i] == NewState(blocks[i], k)
  {
    states, v := [], [];
    NothingHeld(k);
    hide Holds, NewState, Footprint;
    for i := 0 to |blocks|
      invariant |states| == i && (forall st :: st in states ==> fresh(st)) && fresh(Footprint(states))
      invariant Holds(states, v, k)
      invariant |v| == i && forall j :: 0 <= j < i ==> v[j] == NewState(blocks[j], k)
    {
      ghost var before := Footprint(states);
      states := PushNew(states, v, blocks[i], k);
      assert forall o :: o in Footprint(states) ==> o in before || fresh(o);
      v := v + [NewState(blocks[i], k)];
    }
  }

  /**
   * What a call of `karmarkar_karp` guarantees: the parts split the indices exactly, the first min(k, n) of them are
   * not empty, their sums differ by no more than the spread bound, and equal sizes are equal.
   */
  ghost predicate Balanced(lens: seq<nat>, k: nat, equalSize: bool, parts: seq<seq<nat>>)
    requires k > 0 && Fits(|lens|, k, equalSize)
  {
    && |parts| == k
    && IsPartition(parts, |lens|)
    && (forall g, a :: 0 <= g < k && 0 <= a < |parts[g]| ==> parts[g][a] < |lens|)
    && (forall g :: 0 <= g < k ==> (parts[g] != [] <==> g < Min(k, |lens|)))
    && (forall g, h :: 0 <= g < k && 0 <= h < k ==>
      SumOf(lens, parts[g]) - SumOf(lens, parts[h]) <= SpreadBound(lens, k, equalSize))
    && (forall g, h :: 0 <= g < h < k ==> SumOf(lens, parts[g]) >= SumOf(lens, parts[h]))
    && (equalSize ==> EqualSizes(parts, |lens|))
  }

  ghost predicate EqualSizes(parts: seq<seq<nat>>, n: nat) {
    forall g :: 0 <= g < |parts| ==> |parts[g]| * |parts| == n
  }

  lemma FinalSizes(s: seq<Part>, n: nat)
    requires Even(s) && |Bag(s)| == n
    ensures EqualSizes(IndexLists(s), n)
  {
    hide Bag;
    forall g | 0 <= g < |s|
      ensures |s[g].items| * |s| == n
    {
      EvenSize(s, |s[g].items|);
    }
  }

  lemma FinalSums(s: seq<Part>, k: nat, d: int)
    requires StateOk(s, k) && Spread(s) <= d
    ensures forall g, h :: 0 <= g < k && 0 <= h < k ==> s[g].sum - s[h].sum <= d
    ensures forall g, h :: 0 <= g < h < k ==> s[g].sum >= s[h].sum
  {
    forall g, h | 0 <= g < k && 0 <= h < k
      ensures s[g].sum - s[h].sum <= Spread(s)
      ensures g <= h ==> s[g].sum >= s[h].sum
    {
      SumsWithin(s, g, h);
    }
  }

  lemma FinalUsed(s: seq<Part>, k: nat)
    requires StateOk(s, k)
    ensures forall g :: 0 <= g < k ==> (IndexLists(s)[g] != [] <==> g < Min(k, |Bag(s)|))
  {
    UsedFirst(s);
    assert forall g :: 0 <= g < k ==> |IndexLists(s)[g]| == |s[g].items|;
  }

  lemma FinalState(lens: seq<nat>, k: nat, equalSize: bool, s: seq<Part>)
    requires k > 0 && Fits(|lens|, k, equalSize)
    requires StateOk(s, k) && Spread(s) <= SpreadBound(lens, k, equalSize) && (equalSize ==> Even(s))
    requires Bag(s) == multiset(Items(lens)) && |s| == k
    requires forall g :: 0 <= g < |s| ==> s[g].sum == TotalLen(s[g].items)
    ensures Balanced(lens, k, equalSize, IndexLists(s))
  {
    hide SpreadBound, Bag, Even, Spread, Fits, EqualSizes, StateOk, TotalLen, Cover, SumOf, IsPartition;
    assert |multiset(Items(lens))| == |lens|;
    StateIsPartition(lens, s);
    FinalUsed(s, k);
    FinalSums(s, k, SpreadBound(lens, k, equalSize));
    if equalSize {
      FinalSizes(s, |lens|);
    }
  }

  /** `karmarkar_karp`.  The assertion after the loop is the one in the code: it cannot fail. */
  method Balance(lens: seq<nat>, k: nat, equalSize: bool) returns (r: Outcome<seq<seq<nat>>>)
    ensures r.Returned? <==> Balances(|lens|, k, equalSize)
    ensures r.Returned? ==> r.value == Differenced(lens, k, equalSize) && Balanced(lens, k, equalSize, r.value)
  {
    if !Balances(|lens|, k, equalSize) {
      return Raised;
    }
    var parts := MergeAll(lens, k, equalSize);
    if equalSize {
      for i := 0 to |parts| {
        assert |parts[i]| * k == |lens|;
      }
    }
    r := Returned(parts);
  }

  /** The heap and the loop over it. */
  method MergeAll(lens: seq<nat>, k: nat, equalSize: bool) returns (parts: seq<seq<nat>>)
    requires Balances(|lens|, k, equalSize)
    ensures parts == Differenced(lens, k, equalSize) && Balanced(lens, k, equalSize, parts)
  {
    hide InitialBlocks, SpreadBound, PoolOk, PoolBag, Holds, StateOk, Balanced, NewState, Footprint, Separate, Next,
      IsStep, Settled;
    ghost var d, start := SpreadBound(lens, k, equalSize), InitialStates(lens, k, equalSize);
    var states: seq<State>;
    ghost var v;
    states, v := FillHeap(InitialBlocks(lens, k, equalSize), k);
    assert v == start;
    InitialPool(lens, k, equalSize);
    while |states| > 1
      invariant |states| == |v| > 0 && Holds(states, v, k)
      invariant (forall st :: st in states ==> fresh(st)) && fresh(Footprint(states))
      invariant PoolOk(v, k, d, equalSize) && PoolBag(v) == multiset(Items(lens)) && Separate(v, k)
      invariant Sized(v, k) && Settled(v, k) == Settled(start, k)
      decreases |states|
    {
      assert forall i :: 0 <= i < |states| ==> states[i] in states;
      ghost var i, j;
      states, i, j := MergeTwo(states, v, k);
      StepKeeps(v, k, d, equalSize, i, j);
      v := Next(v, k, i, j);
    }
    LastState(states, v, k, d, equalSize);
    LastSettled(v, k);
    FinalState(lens, k, equalSize, v[0]);
    parts := states[0].GetPartitions();
  }

  /** What the loop keeps on the values of the states. */
  lemma StepKeeps(v: seq<seq<Part>>, k: nat, d: int, even: bool, i: nat, j: nat)
    requires PoolOk(v, k, d, even) && Separate(v, k) && Sized(v, k) && |v| > 1 && IsStep(v, k, i, j)
    ensures i < |v| && j < |v| - 1
    ensures PoolOk(Next(v, k, i, j), k, d, even) && PoolBag(Next(v, k, i, j)) == PoolBag(v)
    ensures Separate(Next(v, k, i, j), k) && Settled(Next(v, k, i, j), k) == Settled(v, k)
  {
    StepSettles(v, k, i, j);
    hide Settled, IsLeast, Separate, PoolOk, PoolBag;
    SeparateNext(v, k, i, j);
    PoolMerge(v, i, j, k, d, even);
  }

  lemma LastSettled(v: seq<seq<Part>>, k: nat)
    requires Sized(v, k) && |v| == 1
    ensures Settled(v, k) == v[0]
  {
  }

  lemma LastState(states: seq<State>, v: seq<seq<Part>>, k: nat, d: int, even: bool)
    requires Holds(states, v, k) && PoolOk(v, k, d, even) && |states| == 1
    ensures |v| == 1 && states[0].Valid() && states[0].View() == v[0]
    ensures StateOk(v[0], k) && |v[0]| == k > 0 && Spread(v[0]) <= d && (even ==> Even(v[0]))
    ensures forall g :: 0 <= g < |v[0]| ==> v[0][g].sum == TotalLen(v[0][g].items)
    ensures PoolBag(v) == Bag(v[0])
  {
    assert v[1..] == [];
    assert HasView(states[0], v[0], Footprint(states));
  }
}
