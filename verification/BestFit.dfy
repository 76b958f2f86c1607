/** `get_seqlen_BFD_partitions`: best-fit decreasing packing of sequence lengths. */
module BestFit {
  import opened Wrappers
  import opened Arithmetic
  import opened Sorting
  import opened Partitions

  /** `key=x[0], reverse=True`: stable, longest first. */
  predicate Longer(a: Item, b: Item) {
    a.len > b.len
  }

  function LongestFirst(lens: seq<nat>): (r: seq<Item>)
    ensures |r| == |lens|
  {
    SortBy(Longer, Items(lens))
  }

  ghost predicate Descending(items: seq<Item>) {
    forall i, j :: 0 <= i < j < |items| ==> items[i].len >= items[j].len
  }

  lemma LongestFirstFacts(lens: seq<nat>)
    ensures multiset(LongestFirst(lens)) == multiset(Items(lens))
    ensures ItemsFrom(lens, LongestFirst(lens))
    ensures Descending(LongestFirst(lens)) && |LongestFirst(lens)| == |lens|
  {
    SortByMultiset(Longer, Items(lens));
    SortBySorted(Longer, Items(lens));
    var s := LongestFirst(lens);
    forall i | 0 <= i < |s|
      ensures s[i].idx < |lens| && s[i].len == lens[s[i].idx]
    {
      assert s[i] in multiset(s);
      assert s[i] in Items(lens);
    }
  }

  ghost predicate Before(a: Item, b: Item) {
    a.len > b.len || (a.len == b.len && a.idx < b.idx)
  }

  /** Longer sequences first, equally long ones by index. */
  ghost predicate LongestStable(items: seq<Item>) {
    forall i, j :: 0 <= i < j < |items| ==> Before(items[i], items[j])
  }

  lemma StableBehind(first: Item, rest: seq<Item>)
    requires LongestStable(rest) && forall i :: 0 <= i < |rest| ==> Before(first, rest[i])
    ensures LongestStable([first] + rest)
  {
  }

  lemma InsertMembers(x: Item, items: seq<Item>)
    ensures forall y :: y in Insert(Longer, x, items) ==> y == x || y in items
  {
    InsertMultiset(Longer, x, items);
    forall y | y in Insert(Longer, x, items)
      ensures y == x || y in items
    {
      assert y in multiset(Insert(Longer, x, items));
    }
  }

  lemma {:induction false} InsertStable(x: Item, items: seq<Item>)
    requires LongestStable(items) && forall i :: 0 <= i < |items| ==> x.idx < items[i].idx
    ensures LongestStable(Insert(Longer, x, items))
  {
    if items == [] {
    } else if Longer(items[0], x) {
      InsertStable(x, items[1..]);
      InsertMembers(x, items[1..]);
      hide LongestStable;
      StableTail(items);
      StableBehind(items[0], Insert(Longer, x, items[1..]));
    } else {
      StableBehind(x, items);
    }
  }

  lemma StableTail(items: seq<Item>)
    requires LongestStable(items) && items != []
    ensures LongestStable(items[1..])
    ensures forall y :: y in items[1..] ==> Before(items[0], y)
  {
  }

  lemma {:induction false} SortStable(items: seq<Item>)
    requires forall i, j :: 0 <= i < j < |items| ==> items[i].idx < items[j].idx
    ensures LongestStable(SortBy(Longer, items))
  {
    if items != [] {
      SortStable(items[1..]);
      var rest := SortBy(Longer, items[1..]);
      SortByMultiset(Longer, items[1..]);
      forall i | 0 <= i < |rest|
        ensures items[0].idx < rest[i].idx
      {
        assert rest[i] in multiset(rest);
        assert rest[i] in items[1..];
      }
      InsertStable(items[0], rest);
    }
  }

  /** The order in which sequences are packed. */
  lemma LongestFirstOrder(lens: seq<nat>)
    ensures multiset(LongestFirst(lens)) == multiset(Items(lens)) && LongestStable(LongestFirst(lens))
  {
    SortByMultiset(Longer, Items(lens));
    SortStable(Items(lens));
  }

  ghost predicate InRange(lens: seq<nat>, groups: seq<seq<nat>>) {
    forall g, a :: 0 <= g < |groups| && 0 <= a < |groups[g]| ==> groups[g][a] < |lens|
  }

  lemma {:induction false} SumOfSnoc(lens: seq<nat>, group: seq<nat>, i: nat)
    requires i < |lens|
    ensures SumOf(lens, group + [i]) == SumOf(lens, group) + lens[i]
  {
    if group == [] {
      assert (group + [i])[1..] == [];
    } else {
      assert (group + [i])[1..] == group[1..] + [i];
      SumOfSnoc(lens, group[1..], i);
    }
  }

  /** Groups of valid indices, none over capacity, listing each index exactly once. */
  ghost predicate IsPacking(lens: seq<nat>, cap: nat, groups: seq<seq<nat>>) {
    && IsPartition(groups, |lens|)
    && InRange(lens, groups)
    && forall g :: 0 <= g < |groups| ==> SumOf(lens, groups[g]) <= cap
  }

  /**
   * What best-fit decreasing leaves behind.  The first item of a group is its longest, and it does not fit into any
   * earlier group any more; neither does the second, if the first takes no more than half of the capacity.
   */
  ghost predicate BestFitShape(lens: seq<nat>, cap: nat, groups: seq<seq<nat>>)
    requires InRange(lens, groups)
  {
    && (forall g :: 0 <= g < |groups| ==> groups[g] != [])
    && (forall g, h :: 0 <= g < h < |groups| ==> First(lens, groups, g) >= First(lens, groups, h))
    && (forall g, h :: 0 <= g < h < |groups| ==> SumOf(lens, groups[g]) + First(lens, groups, h) > cap)
    && (forall g, h :: 0 <= g < h < |groups| && |groups[h]| >= 2 && 2 * First(lens, groups, h) <= cap ==>
      SumOf(lens, groups[g]) + lens[groups[h][1]] > cap)
  }

  function First(lens: seq<nat>, groups: seq<seq<nat>>, g: nat): nat
    requires g < |groups|
  {
    if groups[g] != [] && groups[g][0] < |lens| then lens[groups[g][0]] else 0
  }

  /** The invariant of the packing loop: `low` is the length about to be placed. */
  ghost predicate Packing(lens: seq<nat>, cap: nat, groups: seq<seq<nat>>, remaining: seq<int>, low: nat) {
    && InRange(lens, groups)
    && BestFitShape(lens, cap, groups)
    && |remaining| == |groups|
    && (forall g :: 0 <= g < |groups| ==> remaining[g] == cap - SumOf(lens, groups[g]) >= 0)
    && (forall g :: 0 <= g < |groups| ==> First(lens, groups, g) >= low)
  }

  /** The first of the first `n` groups that an item of length `len` fills most tightly; -1 if it fits none of them. */
  function BestOf(remaining: seq<int>, len: int, n: nat): (best: int)
    requires n <= |remaining|
    ensures -1 <= best < n
  {
    if n == 0 then -1
    else
      var best := BestOf(remaining, len, n - 1);
      if remaining[n - 1] >= len && (best == -1 || remaining[n - 1] < remaining[best]) then n - 1 else best
  }

  datatype Packs = Packs(groups: seq<seq<nat>>, remaining: seq<int>)

  /** The groups after one more item: it joins the best group or opens a new one. */
  function PackStep(cap: nat, p: Packs, item: Item): Packs {
    var best := BestOf(p.remaining, item.len, |p.remaining|);
    if 0 <= best < |p.groups| then
      Packs(p.groups[best := p.groups[best] + [item.idx]], p.remaining[best := p.remaining[best] - item.len])
    else Packs(p.groups + [[item.idx]], p.remaining + [cap - item.len])
  }

  /** The groups after the first `m` items of the order. */
  function PackedUpTo(cap: nat, order: seq<Item>, m: nat): Packs
    requires m <= |order|
  {
    if m == 0 then Packs([], []) else PackStep(cap, PackedUpTo(cap, order, m - 1), order[m - 1])
  }

  /** The groups of best-fit decreasing. */
  function BestFitGroups(lens: seq<nat>, cap: nat): seq<seq<nat>> {
    PackedUpTo(cap, LongestFirst(lens), |lens|).groups
  }

  /** The inner loop: the first of the groups that the item fills most tightly, if it fits any. */
  method BestGroup(remaining: seq<int>, seqLen: nat) returns (best: int)
    ensures best == BestOf(remaining, seqLen, |remaining|)
    ensures -1 <= best < |remaining|
    ensures best == -1 ==> forall g :: 0 <= g < |remaining| ==> remaining[g] < seqLen
    ensures best >= 0 ==> remaining[best] >= seqLen
    ensures best >= 0 ==> forall g :: 0 <= g < |remaining| && remaining[g] >= seqLen ==>
      remaining[best] <= remaining[g] && (g < best ==> remaining[best] < remaining[g])
  {
    best := -1;
    var minRemainingAfterFit: Option<int> := None;
    for g := 0 to |remaining|
      invariant -1 <= best < g && best == BestOf(remaining, seqLen, g)
      invariant best == -1 <==> minRemainingAfterFit == None
      invariant best == -1 ==> forall h :: 0 <= h < g ==> remaining[h] < seqLen
      invariant best >= 0 ==> minRemainingAfterFit == Some(remaining[best] - seqLen) && remaining[best] >= seqLen
      invariant best >= 0 ==> forall h :: 0 <= h < g && remaining[h] >= seqLen ==>
        remaining[best] <= remaining[h] && (h < best ==> remaining[best] < remaining[h])
    {
      if remaining[g] >= seqLen {
        var remainingAfterFit := remaining[g] - seqLen;
        if minRemainingAfterFit == None || remainingAfterFit < minRemainingAfterFit.value {
          minRemainingAfterFit := Some(remainingAfterFit);
          best := g;
        }
      }
    }
  }

  lemma LoneLoad(lens: seq<nat>, i: nat)
    requires i < |lens|
    ensures SumOf(lens, [i]) == lens[i]
  {
    assert [i][1..] == [];
  }

  lemma OpenFirsts(lens: seq<nat>, groups: seq<seq<nat>>, i: nat)
    requires i < |lens|
    ensures forall g :: 0 <= g < |groups| ==> First(lens, groups + [[i]], g) == First(lens, groups, g)
    ensures First(lens, groups + [[i]], |groups|) == lens[i]
  {
  }

  lemma OpenShape(lens: seq<nat>, cap: nat, groups: seq<seq<nat>>, remaining: seq<int>, i: nat)
    requires i < |lens| && Packing(lens, cap, groups, remaining, lens[i])
    requires forall g :: 0 <= g < |remaining| ==> remaining[g] < lens[i]
    ensures InRange(lens, groups + [[i]]) && BestFitShape(lens, cap, groups + [[i]])
  {
    OpenFirsts(lens, groups, i);
    hide First, SumOf;
    var groups' := groups + [[i]];
    forall g, h | 0 <= g < h < |groups'|
      ensures SumOf(lens, groups'[g]) + First(lens, groups', h) > cap
    {
      assert groups'[g] == groups[g] && remaining[g] < lens[i];
    }
  }

  lemma OpenGroup(lens: seq<nat>, cap: nat, groups: seq<seq<nat>>, remaining: seq<int>, i: nat)
    requires i < |lens| && lens[i] <= cap && Packing(lens, cap, groups, remaining, lens[i])
    requires forall g :: 0 <= g < |remaining| ==> remaining[g] < lens[i]
    ensures Packing(lens, cap, groups + [[i]], remaining + [cap - lens[i]], lens[i])
  {
    OpenShape(lens, cap, groups, remaining, i);
    OpenFirsts(lens, groups, i);
    LoneLoad(lens, i);
    hide BestFitShape, InRange, First, SumOf;
  }

  lemma FillFirsts(lens: seq<nat>, groups: seq<seq<nat>>, b: nat, i: nat, groups': seq<seq<nat>>)
    requires b < |groups| && groups[b] != [] && groups' == groups[b := groups[b] + [i]]
    ensures forall g :: 0 <= g < |groups| ==> First(lens, groups', g) == First(lens, groups, g)
  {
  }

  lemma FillLoads(lens: seq<nat>, groups: seq<seq<nat>>, b: nat, i: nat, groups': seq<seq<nat>>)
    requires b < |groups| && i < |lens| && groups' == groups[b := groups[b] + [i]]
    ensures forall g :: 0 <= g < |groups| ==>
      SumOf(lens, groups'[g]) == SumOf(lens, groups[g]) + if g == b then lens[i] else 0
  {
    SumOfSnoc(lens, groups[b], i);
    hide SumOf;
  }

  /** If the item joins a single short one, it did not fit into the groups before. */
  lemma LoneTightest(lens: seq<nat>, cap: nat, groups: seq<seq<nat>>, remaining: seq<int>, i: nat, b: nat)
    requires i < |lens| && Packing(lens, cap, groups, remaining, lens[i])
    requires b < |groups| && |groups[b]| == 1 && 2 * First(lens, groups, b) <= cap
    requires forall g :: 0 <= g < |remaining| && remaining[g] >= lens[i] ==> remaining[b] <= remaining[g]
    ensures forall g :: 0 <= g < b ==> remaining[g] < lens[i]
  {
    LoneLoad(lens, groups[b][0]);
    assert groups[b] == [groups[b][0]] && First(lens, groups, b) == SumOf(lens, groups[b]);
    hide First, SumOf;
    forall g | 0 <= g < b
      ensures remaining[g] < lens[i]
    {
      assert SumOf(lens, groups[g]) + First(lens, groups, b) > cap;
    }
  }

  /** A second item does not fit into the groups before. */
  lemma FillSeconds(lens: seq<nat>, cap: nat, groups: seq<seq<nat>>, remaining: seq<int>, i: nat, b: nat,
      groups': seq<seq<nat>>, g: nat, h: nat)
    requires i < |lens| && Packing(lens, cap, groups, remaining, lens[i])
    requires b < |groups| && groups' == groups[b := groups[b] + [i]]
    requires forall g :: 0 <= g < |remaining| && remaining[g] >= lens[i] ==> remaining[b] <= remaining[g]
    requires g < h < |groups'| && |groups'[h]| >= 2 && 2 * First(lens, groups', h) <= cap
    ensures groups'[h][1] < |lens| && SumOf(lens, groups'[g]) + lens[groups'[h][1]] > cap
  {
    FillLoads(lens, groups, b, i, groups');
    FillFirsts(lens, groups, b, i, groups');
    hide First, SumOf;
    if h == b && |groups[b]| == 1 {
      LoneTightest(lens, cap, groups, remaining, i, b);
      assert remaining[g] < lens[i];
    }
  }

  lemma FillShape(lens: seq<nat>, cap: nat, groups: seq<seq<nat>>, remaining: seq<int>, i: nat, b: nat,
      groups': seq<seq<nat>>)
    requires i < |lens| && Packing(lens, cap, groups, remaining, lens[i])
    requires b < |groups| && groups' == groups[b := groups[b] + [i]]
    requires forall g :: 0 <= g < |remaining| && remaining[g] >= lens[i] ==> remaining[b] <= remaining[g]
    ensures InRange(lens, groups') && BestFitShape(lens, cap, groups')
  {
    FillLoads(lens, groups, b, i, groups');
    FillFirsts(lens, groups, b, i, groups');
    forall g, h | 0 <= g < h < |groups'| && |groups'[h]| >= 2 && 2 * First(lens, groups', h) <= cap
      ensures groups'[h][1] < |lens| && SumOf(lens, groups'[g]) + lens[groups'[h][1]] > cap
    {
      FillSeconds(lens, cap, groups, remaining, i, b, groups', g, h);
    }
    hide First, SumOf;
    forall g, h | 0 <= g < h < |groups'|
      ensures SumOf(lens, groups'[g]) + First(lens, groups', h) > cap
    {
      assert SumOf(lens, groups[g]) + First(lens, groups, h) > cap;
    }
  }

  lemma FillGroup(lens: seq<nat>, cap: nat, groups: seq<seq<nat>>, remaining: seq<int>, i: nat, b: nat)
    requires i < |lens| && Packing(lens, cap, groups, remaining, lens[i])
    requires b < |groups| && remaining[b] >= lens[i]
    requires forall g :: 0 <= g < |remaining| && remaining[g] >= lens[i] ==> remaining[b] <= remaining[g]
    ensures Packing(lens, cap, groups[b := groups[b] + [i]], remaining[b := remaining[b] - lens[i]], lens[i])
  {
    FillShape(lens, cap, groups, remaining, i, b, groups[b := groups[b] + [i]]);
    FillFirsts(lens, groups, b, i, groups[b := groups[b] + [i]]);
    FillLoads(lens, groups, b, i, groups[b := groups[b] + [i]]);
    hide BestFitShape, InRange, First, SumOf;
  }

  lemma {:induction false} CoverOpen(groups: seq<seq<nat>>, group: seq<nat>)
    ensures Cover(groups + [group]) == Cover(groups) + multiset(group)
  {
    if groups == [] {
      assert (groups + [group])[1..] == [];
    } else {
      assert (groups + [group])[1..] == groups[1..] + [group];
      CoverOpen(groups[1..], group);
    }
  }

  lemma {:induction false} CoverFill(groups: seq<seq<nat>>, b: nat, i: nat)
    requires b < |groups|
    ensures Cover(groups[b := groups[b] + [i]]) == Cover(groups) + multiset{i}
  {
    var groups' := groups[b := groups[b] + [i]];
    if b == 0 {
      assert groups'[1..] == groups[1..];
    } else {
      assert groups'[1..] == groups[1..][b - 1 := groups[1..][b - 1] + [i]];
      CoverFill(groups[1..], b - 1, i);
    }
  }

  lemma IndicesSnoc(items: seq<Item>, m: nat)
    requires m < |items|
    ensures multiset(Indices(items[..m + 1])) == multiset(Indices(items[..m])) + multiset{items[m].idx}
  {
    assert Indices(items[..m + 1]) == Indices(items[..m]) + [items[m].idx];
  }

  lemma IndicesOfAll(lens: seq<nat>, items: seq<Item>)
    requires multiset(items) == multiset(Items(lens)) && ItemsFrom(lens, items)
    ensures multiset(Indices(items)) == multiset(Range(|lens|))
  {
    forall i: nat
      ensures multiset(Indices(items))[i] == multiset(Range(|lens|))[i]
    {
      IndicesCount(lens, items, i);
      if i < |lens| {
        ItemsOnce(lens, i);
      }
    }
  }

  /** One turn of the packing loop: the item goes into the best group, or opens one. */
  method Place(lens: seq<nat>, cap: nat, groups: seq<seq<nat>>, remaining: seq<int>, i: nat)
    returns (groups': seq<seq<nat>>, remaining': seq<int>)
    requires i < |lens| && lens[i] <= cap && Packing(lens, cap, groups, remaining, lens[i])
    ensures Packing(lens, cap, groups', remaining', lens[i])
    ensures Cover(groups') == Cover(groups) + multiset{i}
    ensures Packs(groups', remaining') == PackStep(cap, Packs(groups, remaining), Item(i, lens[i]))
  {
    hide Packing, Cover, BestOf;
    PackingSizes(lens, cap, groups, remaining, lens[i]);
    var best := BestGroup(remaining, lens[i]);
    if best != -1 {
      FillGroup(lens, cap, groups, remaining, i, best);
      CoverFill(groups, best, i);
      groups', remaining' := groups[best := groups[best] + [i]], remaining[best := remaining[best] - lens[i]];
    } else {
      OpenGroup(lens, cap, groups, remaining, i);
      CoverOpen(groups, [i]);
      groups', remaining' := groups + [[i]], remaining + [cap - lens[i]];
    }
  }

  lemma PackingSizes(lens: seq<nat>, cap: nat, groups: seq<seq<nat>>, remaining: seq<int>, low: nat)
    requires Packing(lens, cap, groups, remaining, low)
    ensures |remaining| == |groups|
  {
  }

  lemma PackingEnds(lens: seq<nat>, cap: nat, groups: seq<seq<nat>>, remaining: seq<int>)
    requires Packing(lens, cap, groups, remaining, 0) && IsPartition(groups, |lens|)
    ensures IsPacking(lens, cap, groups) && BestFitShape(lens, cap, groups)
  {
    assert forall g :: 0 <= g < |groups| ==> remaining[g] >= 0;
  }

  function NextLen(items: seq<Item>, m: nat): nat {
    if m < |items| then items[m].len else 0
  }

  lemma PackingLower(lens: seq<nat>, cap: nat, groups: seq<seq<nat>>, remaining: seq<int>, low: nat, low': nat)
    requires Packing(lens, cap, groups, remaining, low) && low' <= low
    ensures Packing(lens, cap, groups, remaining, low')
  {
  }

  /** The first `m` items are packed, each once, into the groups of best-fit decreasing. */
  ghost predicate PackedSoFar(lens: seq<nat>, cap: nat, items: seq<Item>, m: nat, groups: seq<seq<nat>>,
      remaining: seq<int>) {
    && m <= |items| && Packing(lens, cap, groups, remaining, NextLen(items, m))
    && Packs(groups, remaining) == PackedUpTo(cap, items, m)
    && Cover(groups) == multiset(Indices(items[..m]))
  }

  lemma NothingPacked(lens: seq<nat>, cap: nat, items: seq<Item>)
    ensures PackedSoFar(lens, cap, items, 0, [], [])
  {
  }

  lemma PackedMeans(lens: seq<nat>, cap: nat, items: seq<Item>, m: nat, groups: seq<seq<nat>>, remaining: seq<int>)
    requires PackedSoFar(lens, cap, items, m, groups, remaining) && m < |items|
    ensures Packing(lens, cap, groups, remaining, items[m].len)
  {
    hide Packing, PackedUpTo, Cover, Indices;
  }

  lemma PackedNext(lens: seq<nat>, cap: nat, items: seq<Item>, m: nat, groups: seq<seq<nat>>, remaining: seq<int>,
      groups': seq<seq<nat>>, remaining': seq<int>)
    requires PackedSoFar(lens, cap, items, m, groups, remaining) && m < |items| && Descending(items)
    requires Packing(lens, cap, groups', remaining', items[m].len)
    requires Cover(groups') == Cover(groups) + multiset{items[m].idx}
    requires Packs(groups', remaining') == PackStep(cap, Packs(groups, remaining), items[m])
    ensures PackedSoFar(lens, cap, items, m + 1, groups', remaining')
  {
    IndicesSnoc(items, m);
    PackingLower(lens, cap, groups', remaining', items[m].len, NextLen(items, m + 1));
    hide Packing, PackStep, Cover, Indices;
  }

  lemma AllPacked(lens: seq<nat>, cap: nat, items: seq<Item>, groups: seq<seq<nat>>, remaining: seq<int>)
    requires items == LongestFirst(lens) && PackedSoFar(lens, cap, items, |items|, groups, remaining)
    ensures groups == BestFitGroups(lens, cap) && IsPacking(lens, cap, groups) && BestFitShape(lens, cap, groups)
  {
    hide LongestFirst, Packing, IsPacking, BestFitShape, Cover, Indices, PackedUpTo;
    LongestFirstFacts(lens);
    assert items[..|items|] == items;
    IndicesOfAll(lens, items);
    PackingEnds(lens, cap, groups, remaining);
  }

  /**
   * `get_seqlen_BFD_partitions`: refuses exactly the inputs with a sequence over the capacity.
   * The assertions at the end are those of the code; they cannot fail.
   */
  method BestFitDecreasing(lens: seq<nat>, cap: nat) returns (r: Outcome<seq<seq<nat>>>)
    ensures r.Returned? <==> forall i :: 0 <= i < |lens| ==> lens[i] <= cap
    ensures r.Returned? ==> r.value == BestFitGroups(lens, cap)
    ensures r.Returned? ==> IsPacking(lens, cap, r.value) && BestFitShape(lens, cap, r.value)
  {
    if exists i :: 0 <= i < |lens| && lens[i] > cap {
      return Raised;
    }
    hide *;
    var items := LongestFirst(lens);
    LongestFirstFacts(lens);
    var groups: seq<seq<nat>> := [];
    var remaining: seq<int> := [];
    NothingPacked(lens, cap, items);
    for m := 0 to |items|
      invariant PackedSoFar(lens, cap, items, m, groups, remaining)
    {
      PackedMeans(lens, cap, items, m, groups, remaining);
      var groups', remaining' := Place(lens, cap, groups, remaining, items[m].idx);
      PackedNext(lens, cap, items, m, groups, remaining, groups', remaining');
      groups, remaining := groups', remaining';
    }
    AllPacked(lens, cap, items, groups, remaining);
    CheckPacking(lens, cap, groups);
    r := Returned(groups);
  }

  /** The two checks at the end: no group over capacity, no index twice, as many indices as sequences. */
  method CheckPacking(lens: seq<nat>, cap: nat, groups: seq<seq<nat>>)
    requires IsPacking(lens, cap, groups)
  {
    for g := 0 to |groups| {
      assert SumOf(lens, groups[g]) <= cap;
    }
    PartitionMeans(groups, |lens|);
    var seen: set<nat> := {};
    for g := 0 to |groups|
      invariant forall i :: i in seen <==> exists h, b :: 0 <= h < g && 0 <= b < |groups[h]| && groups[h][b] == i
    {
      for a := 0 to |groups[g]|
        invariant forall i :: i in seen <==>
          (exists h, b :: 0 <= h < g && 0 <= b < |groups[h]| && groups[h][b] == i)
            || (exists b :: 0 <= b < a && groups[g][b] == i)
      {
        assert groups[g][a] !in seen;
        seen := seen + {groups[g][a]};
      }
    }
    forall i: nat
      ensures i in seen <==> i < |lens|
    {
      if i < |lens| {
        assert InSomeGroup(groups, i);
        var g :| 0 <= g < |groups| && i in groups[g];
        var b :| 0 <= b < |groups[g]| && groups[g][b] == i;
      }
    }
    RangeSize(seen, |lens|);
    assert |seen| == |lens|;
  }

  lemma {:induction false} RangeSize(s: set<nat>, n: nat)
    requires forall i: nat :: i in s <==> i < n
    ensures |s| == n
  {
    if n == 0 {
      assert s == {};
    } else {
      RangeSize(s - {n - 1}, n - 1);
    }
  }
}
