/** The values behind Karmarkar-Karp: parts (`Set`), states and their merging. */
module Partitions {
  import opened Arithmetic
  import opened Sorting

  /** An item `(idx, seqlen)`. */
  datatype Item = Item(idx: nat, len: nat)

  /** The value of a `Set` object. */
  datatype Part = Part(sum: nat, items: seq<Item>)

  function ItemLess(a: Item, b: Item): bool {
    a.idx < b.idx || (a.idx == b.idx && a.len < b.len)
  }

  /** Lexicographic order of item lists. */
  function ItemsLess(a: seq<Item>, b: seq<Item>): bool {
    if b == [] then false
    else if a == [] then true
    else if a[0] != b[0] then ItemLess(a[0], b[0])
    else ItemsLess(a[1..], b[1..])
  }

  /** `Set.__lt__`: by sum, then by number of items, then by the items. */
  function PartLess(a: Part, b: Part): bool {
    if a.sum != b.sum then a.sum < b.sum
    else if |a.items| != |b.items| then |a.items| < |b.items|
    else ItemsLess(a.items, b.items)
  }

  /** `a` and `b` agree before position `i`; there `a` has the smaller index or, at equal indices, length. */
  ghost predicate FirstSmaller(a: seq<Item>, b: seq<Item>, i: nat) {
    && i < |a| && i < |b| && (forall j :: 0 <= j < i ==> a[j] == b[j])
    && (a[i].idx < b[i].idx || (a[i].idx == b[i].idx && a[i].len < b[i].len))
  }

  lemma {:induction false} ItemsLessMeans(a: seq<Item>, b: seq<Item>)
    requires |a| == |b|
    ensures ItemsLess(a, b) <==> exists i: nat :: FirstSmaller(a, b, i)
  {
    if a != [] {
      ItemsLessMeans(a[1..], b[1..]);
      if ItemsLess(a, b) {
        if a[0] != b[0] {
          assert FirstSmaller(a, b, 0);
        } else {
          var i: nat :| FirstSmaller(a[1..], b[1..], i);
          assert FirstSmaller(a, b, i + 1) by {
            assert forall j :: 0 < j < i + 1 ==> a[j] == a[1..][j - 1] && b[j] == b[1..][j - 1];
          }
        }
      }
      if i: nat :| FirstSmaller(a, b, i) {
        if i > 0 {
          assert FirstSmaller(a[1..], b[1..], i - 1);
        }
      }
    }
  }

  /** A set is below another if its sum is; for equal sums if it has fewer items; then if its first other item is. */
  lemma PartLessMeans(a: Part, b: Part)
    ensures PartLess(a, b) <==>
      (|| a.sum < b.sum
       || (a.sum == b.sum && |a.items| < |b.items|)
       || (a.sum == b.sum && |a.items| == |b.items| && exists i: nat :: FirstSmaller(a.items, b.items, i)))
  {
    if |a.items| == |b.items| {
      ItemsLessMeans(a.items, b.items);
    }
  }

  function PartGreater(a: Part, b: Part): bool {
    PartLess(b, a)
  }

  /** `sorted(sets, reverse=True)`. */
  function SortDescending(s: seq<Part>): (r: seq<Part>)
    ensures |r| == |s|
  {
    SortBy(PartGreater, s)
  }

  lemma {:induction false} ItemsLessOrder(a: seq<Item>, b: seq<Item>, c: seq<Item>)
    ensures ItemsLess(a, b) ==> !ItemsLess(b, a)
    ensures ItemsLess(a, c) ==> ItemsLess(a, b) || ItemsLess(b, c)
  {
    if a != [] && b != [] {
      ItemsLessOrder(a[1..], b[1..], if c != [] then c[1..] else c);
    }
  }

  lemma PartGreaterIsOrder()
    ensures StrictOrder(PartGreater)
  {
    forall x, y
      ensures PartGreater(x, y) ==> !PartGreater(y, x)
    {
      ItemsLessOrder(x.items, y.items, x.items);
    }
    forall x, y, z
      ensures PartGreater(x, z) ==> PartGreater(x, y) || PartGreater(y, z)
    {
      ItemsLessOrder(z.items, y.items, x.items);
    }
  }

  const Empty := Part(0, [])

  function PartAdd(p: Part, x: Item): Part {
    Part(p.sum + x.len, p.items + [x])
  }

  function PartMerge(p: Part, q: Part): Part {
    Part(p.sum + TotalLen(q.items), p.items + q.items)
  }

  /** The sets of `State(items, k)` before sorting. */
  function Filled(items: seq<Item>, k: nat): (s: seq<Part>)
    requires |items| <= k
    ensures |s| == k
  {
    seq(k, i requires 0 <= i < k => if i < |items| then PartAdd(Empty, items[i]) else Empty)
  }

  function NewState(items: seq<Item>, k: nat): (s: seq<Part>)
    requires |items| <= k
    ensures |s| == k
  {
    SortDescending(Filled(items, k))
  }

  /** Largest with smallest, before sorting again. */
  function Crossed(s: seq<Part>, t: seq<Part>): (r: seq<Part>)
    requires |s| == |t|
    ensures |r| == |s|
  {
    seq(|s|, i requires 0 <= i < |s| => PartMerge(s[i], t[|s| - 1 - i]))
  }

  /** `State.merge`. */
  function MergeStates(s: seq<Part>, t: seq<Part>): (r: seq<Part>)
    requires |s| == |t|
    ensures |r| == |s|
  {
    SortDescending(Crossed(s, t))
  }

  // ---------------------------------------------------------------- what every state satisfies

  function TotalLen(items: seq<Item>): nat {
    if items == [] then 0 else items[0].len + TotalLen(items[1..])
  }

  lemma {:induction false} TotalLenConcat(a: seq<Item>, b: seq<Item>)
    ensures TotalLen(a + b) == TotalLen(a) + TotalLen(b)
  {
    if a == [] {
      assert a + b == b;
    } else {
      assert (a + b)[1..] == a[1..] + b;
      TotalLenConcat(a[1..], b);
    }
  }

  /** All items of a state, with their multiplicities. */
  function Bag(s: seq<Part>): multiset<Item> {
    if s == [] then multiset{} else multiset(s[0].items) + Bag(s[1..])
  }

  function NonEmptyCount(s: seq<Part>): nat {
    if s == [] then 0 else (if s[0].items != [] then 1 else 0) + NonEmptyCount(s[1..])
  }

  function Spread(s: seq<Part>): int
    requires |s| > 0
  {
    s[0].sum - s[|s| - 1].sum
  }

  /** The sums are right, the sets are sorted, and as many of them are in use as there are items for. */
  ghost predicate StateOk(s: seq<Part>, k: nat) {
    && |s| == k > 0
    && (forall i :: 0 <= i < k ==> s[i].sum == TotalLen(s[i].items))
    && SortedBy(PartGreater, s)
    && NonEmptyCount(s) == Min(k, |Bag(s)|)
  }

  lemma {:induction false} InsertPart(x: Part, s: seq<Part>)
    ensures Bag(Insert(PartGreater, x, s)) == Bag(s) + multiset(x.items)
    ensures NonEmptyCount(Insert(PartGreater, x, s)) == NonEmptyCount(s) + if x.items != [] then 1 else 0
  {
    if s == [] || !PartGreater(s[0], x) {
      assert ([x] + s)[1..] == s;
    } else {
      InsertPart(x, s[1..]);
      assert ([s[0]] + Insert(PartGreater, x, s[1..]))[1..] == Insert(PartGreater, x, s[1..]);
    }
  }

  /** Sorting keeps the items and the number of sets in use. */
  lemma {:induction false} SortKeeps(s: seq<Part>)
    ensures Bag(SortDescending(s)) == Bag(s)
    ensures NonEmptyCount(SortDescending(s)) == NonEmptyCount(s)
  {
    if s != [] {
      SortKeeps(s[1..]);
      InsertPart(s[0], SortDescending(s[1..]));
    }
  }

  lemma SortSorts(s: seq<Part>)
    ensures SortedBy(PartGreater, SortDescending(s))
    ensures multiset(SortDescending(s)) == multiset(s)
  {
    PartGreaterIsOrder();
    SortBySorted(PartGreater, s);
    SortByMultiset(PartGreater, s);
  }

  /** In a sorted state the sets in use come first: an empty set is below every other, also below one of zero length. */
  lemma {:induction false} UsedFirst(s: seq<Part>)
    requires SortedBy(PartGreater, s)
    requires forall i :: 0 <= i < |s| ==> s[i].sum == TotalLen(s[i].items)
    ensures forall i :: 0 <= i < |s| ==> (s[i].items != [] <==> i < NonEmptyCount(s))
  {
    if s != [] {
      UsedFirst(s[1..]);
      if s[0].items == [] {
        forall i | 0 <= i < |s|
          ensures s[i].items == []
        {
          assert i > 0 ==> !PartLess(s[0], s[i]);
        }
        NoneUsed(s);
      }
    }
  }

  lemma NoneUsed(s: seq<Part>)
    requires forall i :: 0 <= i < |s| ==> s[i].items == []
    ensures NonEmptyCount(s) == 0
  {
  }

  lemma {:induction false} CountOutside(s: seq<Part>, p: nat, r: nat)
    requires p <= r <= |s|
    requires forall i :: 0 <= i < |s| ==> (s[i].items != [] <==> i < p || i >= r)
    ensures NonEmptyCount(s) == p + |s| - r
  {
    if s != [] {
      CountOutside(s[1..], if p > 0 then p - 1 else 0, if r > 0 then r - 1 else 0);
    }
  }

  lemma {:induction false} BagConcat(a: seq<Part>, b: seq<Part>)
    ensures Bag(a + b) == Bag(a) + Bag(b)
  {
    if a == [] {
      assert a + b == b;
    } else {
      assert (a + b)[1..] == a[1..] + b;
      BagConcat(a[1..], b);
    }
  }

  lemma BagSnoc(t: seq<Part>)
    requires t != []
    ensures Bag(t) == Bag(t[..|t| - 1]) + multiset(t[|t| - 1].items)
  {
    var n := |t| - 1;
    assert t == t[..n] + [t[n]];
    BagConcat(t[..n], [t[n]]);
    assert [t[n]][1..] == [];
  }

  lemma CrossedRest(s: seq<Part>, t: seq<Part>)
    requires |s| == |t| > 0
    ensures Crossed(s, t)[0].items == s[0].items + t[|t| - 1].items
    ensures Crossed(s, t)[1..] == Crossed(s[1..], t[..|t| - 1])
  {
  }

  lemma {:induction false} BagCrossed(s: seq<Part>, t: seq<Part>)
    requires |s| == |t|
    ensures Bag(Crossed(s, t)) == Bag(s) + Bag(t)
  {
    if s != [] {
      var n := |s| - 1;
      BagCrossed(s[1..], t[..n]);
      CrossedRest(s, t);
      BagSnoc(t);
    }
  }

  lemma CrossedUsed(s: seq<Part>, t: seq<Part>, p: nat, q: nat)
    requires |s| == |t| && p <= |s| && q <= |s|
    requires forall i :: 0 <= i < |s| ==> (s[i].items != [] <==> i < p) && (t[i].items != [] <==> i < q)
    ensures NonEmptyCount(Crossed(s, t)) == Min(|s|, p + q)
  {
    var k := |s|;
    hide NonEmptyCount;
    if p + q <= k {
      CountOutside(Crossed(s, t), p, k - q);
    } else {
      CountOutside(Crossed(s, t), k, k);
    }
  }

  lemma UsedAtMost(s: seq<Part>)
    ensures NonEmptyCount(s) <= |s|
  {
  }

  lemma CrossedCount(s: seq<Part>, t: seq<Part>, k: nat)
    requires StateOk(s, k) && StateOk(t, k)
    ensures NonEmptyCount(Crossed(s, t)) == Min(k, NonEmptyCount(s) + NonEmptyCount(t))
  {
    hide SortedBy, NonEmptyCount, TotalLen, Bag, Crossed;
    UsedFirst(s);
    UsedFirst(t);
    UsedAtMost(s);
    UsedAtMost(t);
    CrossedUsed(s, t, NonEmptyCount(s), NonEmptyCount(t));
  }

  /** The largest-with-smallest pairing cannot widen the spread. */
  lemma CrossedSpread(s: seq<Part>, t: seq<Part>, i: nat, j: nat, d: int)
    requires |s| == |t| && i < |s| && j < |s|
    requires SortedBy(PartGreater, s) && SortedBy(PartGreater, t)
    requires forall i :: 0 <= i < |t| ==> t[i].sum == TotalLen(t[i].items)
    requires Spread(s) <= d && Spread(t) <= d
    ensures Crossed(s, t)[i].sum - Crossed(s, t)[j].sum <= d
  {
    var n := |s| - 1;
    SumsWithin(s, i, j);
    SumsWithin(t, n - i, n - j);
    CrossedSum(s, t, i);
    CrossedSum(s, t, j);
    hide *;
  }

  lemma CrossedSum(s: seq<Part>, t: seq<Part>, i: nat)
    requires |s| == |t| && i < |s| && t[|s| - 1 - i].sum == TotalLen(t[|s| - 1 - i].items)
    ensures Crossed(s, t)[i].sum == s[i].sum + t[|s| - 1 - i].sum
  {
  }

  lemma SumsWithin(s: seq<Part>, i: nat, j: nat)
    requires SortedBy(PartGreater, s) && i < |s| && j < |s|
    ensures s[|s| - 1].sum <= s[i].sum <= s[0].sum
    ensures s[i].sum - s[j].sum <= Spread(s)
    ensures i <= j ==> s[i].sum >= s[j].sum
  {
    assert i > 0 ==> !PartGreater(s[i], s[0]);
    assert i < |s| - 1 ==> !PartGreater(s[|s| - 1], s[i]);
    assert j < |s| - 1 ==> !PartGreater(s[|s| - 1], s[j]);
    assert i < j ==> !PartGreater(s[j], s[i]);
  }

  lemma SortMembers(s: seq<Part>, i: nat) returns (j: nat)
    requires i < |s|
    ensures j < |s| && SortDescending(s)[i] == s[j]
  {
    SortSorts(s);
    assert SortDescending(s)[i] in multiset(SortDescending(s));
    j :| 0 <= j < |s| && s[j] == SortDescending(s)[i];
  }

  lemma SortSpread(s: seq<Part>, d: int)
    requires |s| > 0 && forall i, j :: 0 <= i < |s| && 0 <= j < |s| ==> s[i].sum - s[j].sum <= d
    ensures Spread(SortDescending(s)) <= d
  {
    var i := SortMembers(s, 0);
    var j := SortMembers(s, |s| - 1);
  }

  lemma SortSums(s: seq<Part>)
    requires forall i :: 0 <= i < |s| ==> s[i].sum == TotalLen(s[i].items)
    ensures forall i :: 0 <= i < |s| ==> SortDescending(s)[i].sum == TotalLen(SortDescending(s)[i].items)
  {
    forall i | 0 <= i < |s|
      ensures SortDescending(s)[i].sum == TotalLen(SortDescending(s)[i].items)
    {
      var j := SortMembers(s, i);
    }
  }

  /** All sets hold equally many items. */
  ghost predicate Even(s: seq<Part>) {
    forall i, j :: 0 <= i < |s| && 0 <= j < |s| ==> |s[i].items| == |s[j].items|
  }

  lemma SortEven(s: seq<Part>)
    requires Even(s)
    ensures Even(SortDescending(s))
  {
    forall i, j | 0 <= i < |s| && 0 <= j < |s|
      ensures |SortDescending(s)[i].items| == |SortDescending(s)[j].items|
    {
      var a := SortMembers(s, i);
      var b := SortMembers(s, j);
    }
  }

  lemma BagSize(s: seq<Part>)
    requires s != []
    ensures |Bag(s)| == |s[0].items| + |Bag(s[1..])|
  {
    assert |multiset(s[0].items)| == |s[0].items|;
  }

  lemma {:induction false} EvenSize(s: seq<Part>, c: nat)
    requires forall i :: 0 <= i < |s| ==> |s[i].items| == c
    ensures |Bag(s)| == |s| * c
  {
    if s != [] {
      hide Bag;
      EvenSize(s[1..], c);
      TimesNext(|s[1..]|, c);
      BagSize(s);
    }
  }

  lemma MergeOk(s: seq<Part>, t: seq<Part>, k: nat)
    requires StateOk(s, k) && StateOk(t, k)
    ensures StateOk(MergeStates(s, t), k)
    ensures Bag(MergeStates(s, t)) == Bag(s) + Bag(t)
  {
    hide Bag, NonEmptyCount, SortDescending, SortedBy, PartGreater, Crossed, TotalLen;
    var c := Crossed(s, t);
    SortSorts(c);
    SortKeeps(c);
    BagCrossed(s, t);
    CrossedCount(s, t, k);
    CrossedSums(s, t);
    SortSums(c);
  }

  /** Merging keeps every invariant of a state, adds up the items, and spreads no wider than the wider of the two. */
  lemma MergeKeeps(s: seq<Part>, t: seq<Part>, k: nat, d: int)
    requires StateOk(s, k) && StateOk(t, k) && Spread(s) <= d && Spread(t) <= d
    ensures StateOk(MergeStates(s, t), k)
    ensures Bag(MergeStates(s, t)) == Bag(s) + Bag(t)
    ensures Spread(MergeStates(s, t)) <= d
    ensures Even(s) && Even(t) ==> Even(MergeStates(s, t))
  {
    hide Bag, NonEmptyCount, SortDescending, SortedBy, PartGreater, Crossed, TotalLen, Even;
    var c := Crossed(s, t);
    MergeOk(s, t, k);
    CrossedSpreads(s, t, d);
    SortSpread(c, d);
    if Even(s) && Even(t) {
      CrossedEven(s, t);
      SortEven(c);
    }
  }

  lemma CrossedSums(s: seq<Part>, t: seq<Part>)
    requires |s| == |t|
    requires forall i :: 0 <= i < |s| ==> s[i].sum == TotalLen(s[i].items) && t[i].sum == TotalLen(t[i].items)
    ensures forall i :: 0 <= i < |s| ==> Crossed(s, t)[i].sum == TotalLen(Crossed(s, t)[i].items)
  {
    forall i | 0 <= i < |s|
      ensures Crossed(s, t)[i].sum == TotalLen(Crossed(s, t)[i].items)
    {
      TotalLenConcat(s[i].items, t[|s| - 1 - i].items);
    }
  }

  lemma CrossedSpreads(s: seq<Part>, t: seq<Part>, d: int)
    requires |s| == |t| > 0 && SortedBy(PartGreater, s) && SortedBy(PartGreater, t)
    requires forall i :: 0 <= i < |t| ==> t[i].sum == TotalLen(t[i].items)
    requires Spread(s) <= d && Spread(t) <= d
    ensures forall i, j :: 0 <= i < |s| && 0 <= j < |s| ==> Crossed(s, t)[i].sum - Crossed(s, t)[j].sum <= d
  {
    forall i, j | 0 <= i < |s| && 0 <= j < |s|
      ensures Crossed(s, t)[i].sum - Crossed(s, t)[j].sum <= d
    {
      CrossedSpread(s, t, i, j, d);
    }
  }

  lemma CrossedEven(s: seq<Part>, t: seq<Part>)
    requires |s| == |t| && Even(s) && Even(t)
    ensures Even(Crossed(s, t))
  {
  }

  lemma FilledFacts(items: seq<Item>, k: nat)
    requires |items| <= k
    ensures Bag(Filled(items, k)) == multiset(items)
    ensures NonEmptyCount(Filled(items, k)) == |items|
  {
    CountOutside(Filled(items, k), |items|, k);
    FilledBag(items, k);
  }

  lemma FilledRest(items: seq<Item>, k: nat)
    requires |items| <= k && k > 0
    ensures Filled(items, k)[0].items == if items == [] then [] else [items[0]]
    ensures Filled(items, k)[1..] == Filled(if items == [] then [] else items[1..], k - 1)
  {
    var rest := if items == [] then [] else items[1..];
    forall i | 0 <= i < k - 1
      ensures Filled(items, k)[1..][i] == Filled(rest, k - 1)[i]
    {
    }
  }

  lemma BagFirst(s: seq<Part>)
    requires s != []
    ensures Bag(s) == multiset(s[0].items) + Bag(s[1..])
  {
  }

  lemma SplitFirst<T>(s: seq<T>)
    requires s != []
    ensures multiset(s) == multiset([s[0]]) + multiset(s[1..])
  {
    assert s == [s[0]] + s[1..];
  }

  lemma {:induction false} FilledBag(items: seq<Item>, k: nat)
    requires |items| <= k
    ensures Bag(Filled(items, k)) == multiset(items)
  {
    if k > 0 {
      var rest := if items == [] then [] else items[1..];
      FilledBag(rest, k - 1);
      FilledRest(items, k);
      BagFirst(Filled(items, k));
      hide Filled, Bag;
      if items != [] {
        SplitFirst(items);
      }
    }
  }

  lemma FilledSums(items: seq<Item>, k: nat)
    requires |items| <= k
    ensures forall i :: 0 <= i < k ==> Filled(items, k)[i].sum == TotalLen(Filled(items, k)[i].items)
  {
    forall i | 0 <= i < k
      ensures Filled(items, k)[i].sum == TotalLen(Filled(items, k)[i].items)
    {
      assert i < |items| ==> [items[i]][1..] == [];
    }
  }

  lemma FilledSpreads(items: seq<Item>, k: nat, d: int)
    requires 0 < |items| <= k
    requires forall i, j :: 0 <= i < |items| && 0 <= j < |items| ==> items[i].len - items[j].len <= d
    requires |items| < k ==> forall i :: 0 <= i < |items| ==> items[i].len <= d
    ensures forall i, j :: 0 <= i < k && 0 <= j < k ==> Filled(items, k)[i].sum - Filled(items, k)[j].sum <= d
  {
    assert items[0].len - items[0].len <= d;
  }

  /** A fresh state satisfies the invariants; `d` bounds the differences between its sums. */
  lemma NewStateOk(items: seq<Item>, k: nat, d: int)
    requires 0 < |items| <= k
    requires forall i, j :: 0 <= i < |items| && 0 <= j < |items| ==> items[i].len - items[j].len <= d
    requires |items| < k ==> forall i :: 0 <= i < |items| ==> items[i].len <= d
    ensures StateOk(NewState(items, k), k)
    ensures Bag(NewState(items, k)) == multiset(items)
    ensures Spread(NewState(items, k)) <= d
    ensures |items| == k ==> Even(NewState(items, k))
  {
    hide Bag, NonEmptyCount, SortDescending, SortedBy, PartGreater, TotalLen, Even;
    var c := Filled(items, k);
    SortSorts(c);
    SortKeeps(c);
    FilledFacts(items, k);
    FilledSums(items, k);
    SortSums(c);
    FilledSpreads(items, k, d);
    SortSpread(c, d);
    if |items| == k {
      FilledEven(items, k);
      SortEven(c);
    }
  }

  lemma FilledEven(items: seq<Item>, k: nat)
    requires |items| == k
    ensures Even(Filled(items, k))
  {
  }

  /** `State.__lt__`. */
  function StateLess(s: seq<Part>, t: seq<Part>): bool
    requires |s| > 0 && |t| > 0
  {
    if Spread(s) != Spread(t) then Spread(s) > Spread(t) else PartLess(t[0], s[0])
  }

  lemma StateLessOrder(s: seq<Part>, t: seq<Part>, u: seq<Part>)
    requires |s| > 0 && |t| > 0 && |u| > 0
    ensures StateLess(s, t) ==> !StateLess(t, s)
    ensures StateLess(s, u) ==> StateLess(s, t) || StateLess(t, u)
  {
    PartGreaterIsOrder();
    assert PartGreater(s[0], t[0]) ==> !PartGreater(t[0], s[0]);
    assert PartGreater(s[0], u[0]) ==> PartGreater(s[0], t[0]) || PartGreater(t[0], u[0]);
  }

  /** The items of all states in the heap. */
  function PoolBag(v: seq<seq<Part>>): multiset<Item> {
    if v == [] then multiset{} else Bag(v[0]) + PoolBag(v[1..])
  }

  lemma {:induction false} PoolBagSnoc(v: seq<seq<Part>>, s: seq<Part>)
    ensures PoolBag(v + [s]) == PoolBag(v) + Bag(s)
  {
    if v == [] {
      assert (v + [s])[1..] == [];
    } else {
      assert (v + [s])[1..] == v[1..] + [s];
      PoolBagSnoc(v[1..], s);
    }
  }

  function Removed<T>(s: seq<T>, i: nat): (r: seq<T>)
    requires i < |s|
    ensures |r| == |s| - 1
  {
    s[..i] + s[i + 1..]
  }

  lemma RemovedAt<T>(s: seq<T>, i: nat)
    requires i < |s|
    ensures forall m :: 0 <= m < |Removed(s, i)| ==> Removed(s, i)[m] == s[if m < i then m else m + 1]
  {
  }

  lemma RemovedRest<T>(s: seq<T>, i: nat)
    requires 0 < i < |s|
    ensures Removed(s, i)[0] == s[0] && Removed(s, i)[1..] == Removed(s[1..], i - 1)
  {
  }

  lemma {:induction false} PoolBagWithout(v: seq<seq<Part>>, i: nat)
    requires i < |v|
    ensures PoolBag(v) == PoolBag(Removed(v, i)) + Bag(v[i])
  {
    hide Bag;
    if i == 0 {
      assert Removed(v, 0) == v[1..];
    } else {
      PoolBagWithout(v[1..], i - 1);
      RemovedRest(v, i);
      hide Removed;
    }
  }

  lemma StateSize(s: seq<Part>, k: nat)
    requires StateOk(s, k)
    ensures |s| == k > 0
  {
  }

  /** Popping the states at `i` and then at `j`, and pushing their merge, keeps the pool's invariant and its items. */
  lemma PoolMerge(v: seq<seq<Part>>, i: nat, j: nat, k: nat, d: int, even: bool)
    requires PoolOk(v, k, d, even) && i < |v| && j < |v| - 1
    ensures var rest := Removed(v, i);
      && StateOk(v[i], k) && StateOk(rest[j], k) && |v[i]| == |rest[j]| == k
      && var v' := Removed(rest, j) + [MergeStates(v[i], rest[j])];
         PoolOk(v', k, d, even) && PoolBag(v') == PoolBag(v)
  {
    var rest := Removed(v, i);
    PoolWithout(v, i, k, d, even);
    PoolWithout(rest, j, k, d, even);
    PoolBagWithout(v, i);
    PoolBagWithout(rest, j);
    hide PoolBag, PoolOk, Removed;
    MergePooled(v[i], rest[j], k, d, even);
    hide PooledOk, MergeStates;
    PoolPush(Removed(rest, j), MergeStates(v[i], rest[j]), k, d, even);
  }

  lemma MergePooled(s: seq<Part>, t: seq<Part>, k: nat, d: int, even: bool)
    requires PooledOk(s, k, d, even) && PooledOk(t, k, d, even)
    ensures StateOk(s, k) && StateOk(t, k) && |s| == |t| == k
    ensures PooledOk(MergeStates(s, t), k, d, even) && Bag(MergeStates(s, t)) == Bag(s) + Bag(t)
  {
    StateSize(s, k);
    StateSize(t, k);
    hide StateOk, Even, Spread, MergeStates;
    MergeKeeps(s, t, k, d);
  }

  lemma PoolWithout(v: seq<seq<Part>>, i: nat, k: nat, d: int, even: bool)
    requires PoolOk(v, k, d, even) && i < |v|
    ensures PoolOk(Removed(v, i), k, d, even) && PooledOk(v[i], k, d, even)
  {
    hide PooledOk, Removed;
    RemovedAt(v, i);
  }

  lemma PoolPush(v: seq<seq<Part>>, s: seq<Part>, k: nat, d: int, even: bool)
    requires PoolOk(v, k, d, even) && PooledOk(s, k, d, even)
    ensures PoolOk(v + [s], k, d, even) && PoolBag(v + [s]) == PoolBag(v) + Bag(s)
  {
    PoolBagSnoc(v, s);
    hide PooledOk, PoolBag;
  }

  ghost predicate PoolOk(v: seq<seq<Part>>, k: nat, d: int, even: bool) {
    forall i :: 0 <= i < |v| ==> PooledOk(v[i], k, d, even)
  }

  ghost predicate PooledOk(s: seq<Part>, k: nat, d: int, even: bool) {
    StateOk(s, k) && Spread(s) <= d && (even ==> Even(s))
  }

  // ---------------------------------------------------------------- from states to index lists

  function Indices(items: seq<Item>): (r: seq<nat>)
    ensures |r| == |items|
  {
    seq(|items|, i requires 0 <= i < |items| => items[i].idx)
  }

  /** `get_partitions`. */
  function IndexLists(s: seq<Part>): (r: seq<seq<nat>>)
    ensures |r| == |s|
  {
    seq(|s|, i requires 0 <= i < |s| => Indices(s[i].items))
  }

  function Items(lens: seq<nat>): (r: seq<Item>)
    ensures |r| == |lens|
  {
    seq(|lens|, i requires 0 <= i < |lens| => Item(i, lens[i]))
  }

  /** How often each index occurs in a list of groups. */
  function Cover(groups: seq<seq<nat>>): multiset<nat> {
    if groups == [] then multiset{} else multiset(groups[0]) + Cover(groups[1..])
  }

  /** The groups together list each of `0..n-1` exactly once and nothing else. */
  ghost predicate IsPartition(groups: seq<seq<nat>>, n: nat) {
    Cover(groups) == multiset(Range(n))
  }

  /** The length of a group of indices. */
  function SumOf(lens: seq<nat>, group: seq<nat>): nat {
    if group == [] then 0 else (if group[0] < |lens| then lens[group[0]] else 0) + SumOf(lens, group[1..])
  }

  ghost predicate ItemsFrom(lens: seq<nat>, items: seq<Item>) {
    forall i :: 0 <= i < |items| ==> items[i].idx < |lens| && items[i].len == lens[items[i].idx]
  }

  lemma {:induction false} IndicesCount(lens: seq<nat>, items: seq<Item>, i: nat)
    requires ItemsFrom(lens, items)
    ensures multiset(Indices(items))[i] == if i < |lens| then multiset(items)[Item(i, lens[i])] else 0
  {
    if items != [] {
      IndicesCount(lens, items[1..], i);
      SplitFirst(items);
      assert Indices(items)[1..] == Indices(items[1..]);
      SplitFirst(Indices(items));
      hide Indices;
    }
  }

  lemma {:induction false} CoverCount(lens: seq<nat>, s: seq<Part>, i: nat)
    requires forall g :: 0 <= g < |s| ==> ItemsFrom(lens, s[g].items)
    ensures Cover(IndexLists(s))[i] == if i < |lens| then Bag(s)[Item(i, lens[i])] else 0
  {
    if s != [] {
      assert IndexLists(s)[1..] == IndexLists(s[1..]);
      IndicesCount(lens, s[0].items, i);
      CoverCount(lens, s[1..], i);
    }
  }

  lemma ItemsOnce(lens: seq<nat>, i: nat)
    requires i < |lens|
    ensures multiset(Items(lens))[Item(i, lens[i])] == 1
    ensures multiset(Range(|lens|))[i] == 1
  {
    var a, b := Items(lens), Range(|lens|);
    assert a == a[..i] + [a[i]] + a[i + 1..];
    assert b == b[..i] + [b[i]] + b[i + 1..];
  }

  lemma {:induction false} BagMember(s: seq<Part>, g: nat, a: nat)
    requires g < |s| && a < |s[g].items|
    ensures s[g].items[a] in Bag(s)
  {
    if g > 0 {
      BagMember(s[1..], g - 1, a);
    }
  }

  /** A state that holds exactly the input's items splits the indices exactly, and its sums are the groups' lengths. */
  lemma StateIsPartition(lens: seq<nat>, s: seq<Part>)
    requires Bag(s) == multiset(Items(lens))
    requires forall g :: 0 <= g < |s| ==> s[g].sum == TotalLen(s[g].items)
    ensures IsPartition(IndexLists(s), |lens|)
    ensures forall g :: 0 <= g < |s| ==> ItemsFrom(lens, s[g].items) && SumOf(lens, IndexLists(s)[g]) == s[g].sum
  {
    forall g | 0 <= g < |s|
      ensures ItemsFrom(lens, s[g].items) && SumOf(lens, IndexLists(s)[g]) == s[g].sum
    {
      forall a | 0 <= a < |s[g].items|
        ensures s[g].items[a].idx < |lens| && s[g].items[a].len == lens[s[g].items[a].idx]
      {
        BagMember(s, g, a);
        assert s[g].items[a] in Items(lens);
      }
      SumOfItems(lens, s[g].items);
    }
    forall i: nat
      ensures Cover(IndexLists(s))[i] == multiset(Range(|lens|))[i]
    {
      CoverCount(lens, s, i);
      if i < |lens| {
        ItemsOnce(lens, i);
      }
    }
  }

  lemma {:induction false} SumOfItems(lens: seq<nat>, items: seq<Item>)
    requires ItemsFrom(lens, items)
    ensures SumOf(lens, Indices(items)) == TotalLen(items)
  {
    if items != [] {
      assert Indices(items)[1..] == Indices(items[1..]);
      SumOfItems(lens, items[1..]);
    }
  }

  ghost predicate InSomeGroup(groups: seq<seq<nat>>, i: nat) {
    exists g :: 0 <= g < |groups| && i in groups[g]
  }

  /** In a partition every index has one group and one place in it. */
  lemma PartitionMeans(groups: seq<seq<nat>>, n: nat)
    requires IsPartition(groups, n)
    ensures forall g, a :: 0 <= g < |groups| && 0 <= a < |groups[g]| ==> groups[g][a] < n
    ensures forall i :: 0 <= i < n ==> InSomeGroup(groups, i)
    ensures forall g, a, h, b ::
      0 <= g < |groups| && 0 <= a < |groups[g]| && 0 <= h < |groups| && 0 <= b < |groups[h]| ==>
      groups[g][a] == groups[h][b] ==> g == h && a == b
  {
    forall g, a | 0 <= g < |groups| && 0 <= a < |groups[g]|
      ensures groups[g][a] < n
    {
      CoverMember(groups, g, a);
      assert groups[g][a] in Range(n);
    }
    forall i | 0 <= i < n
      ensures InSomeGroup(groups, i)
    {
      assert Range(n)[i] == i;
      CoverHas(groups, i);
    }
    forall g, a, h, b | 0 <= g < |groups| && 0 <= a < |groups[g]| && 0 <= h < |groups| && 0 <= b < |groups[h]|
      && groups[g][a] == groups[h][b]
      ensures g == h && a == b
    {
      CoverMember(groups, g, a);
      RangeOnce(n, groups[g][a]);
      if g != h || a != b {
        CoverTwice(groups, g, a, h, b);
      }
    }
  }

  lemma RangeOnce(n: nat, i: nat)
    ensures multiset(Range(n))[i] <= 1
  {
    if i < n {
      ItemsOnce(Range(n), i);
    } else {
      assert i !in Range(n);
    }
  }

  lemma {:induction false} CoverMember(groups: seq<seq<nat>>, g: nat, a: nat)
    requires g < |groups| && a < |groups[g]|
    ensures groups[g][a] in Cover(groups)
  {
    if g > 0 {
      CoverMember(groups[1..], g - 1, a);
    }
  }

  lemma {:induction false} CoverHas(groups: seq<seq<nat>>, i: nat)
    requires i in Cover(groups)
    ensures InSomeGroup(groups, i)
  {
    if i in groups[0] {
    } else {
      CoverHas(groups[1..], i);
      var g :| 0 <= g < |groups[1..]| && i in groups[1..][g];
      assert groups[g + 1] == groups[1..][g];
    }
  }

  lemma {:induction false} CoverTwice(groups: seq<seq<nat>>, g: nat, a: nat, h: nat, b: nat)
    requires g < |groups| && a < |groups[g]| && h < |groups| && b < |groups[h]| && (g != h || a != b)
    requires groups[g][a] == groups[h][b]
    ensures Cover(groups)[groups[g][a]] >= 2
  {
    if g > h {
      CoverTwice(groups, h, b, g, a);
    } else if g > 0 {
      CoverTwice(groups[1..], g - 1, a, h - 1, b);
    } else if h > 0 {
      CoverMember(groups[1..], h - 1, b);
      assert groups[0][a] in multiset(groups[0]);
    } else {
      TwicePresent(groups[0], a, b);
    }
  }

  lemma TwicePresent(s: seq<nat>, a: nat, b: nat)
    requires a < |s| && b < |s| && a != b && s[a] == s[b]
    ensures multiset(s)[s[a]] >= 2
  {
    var i, j := if a < b then a else b, if a < b then b else a;
    assert s == s[..j] + s[j..];
    assert s[..j][i] in s[..j] && s[j..][0] in s[j..];
  }
}
