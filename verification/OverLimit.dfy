/** An input on which balancing after best-fit decreasing leaves a micro-batch over the token limit. */
module OverLimit {
  import opened Wrappers
  import opened Arithmetic
  import opened Sorting
  import opened Partitions
  import opened Differencing
  import opened KarmarkarKarp
  import opened BestFit
  import opened MicroBatches

  /** Five sequences; 6 is the token limit. */
  const Lens: seq<nat> := [3, 3, 2, 2, 2]

  // ---------------------------------------------------------------- best-fit decreasing counts two groups

  lemma {:induction false} SortedStays<T>(less: (T, T) -> bool, s: seq<T>)
    requires SortedBy(less, s)
    ensures SortBy(less, s) == s
  {
    if s != [] {
      SortedStays(less, s[1..]);
      assert s == [s[0]] + s[1..];
    }
  }

  lemma BestOfOne(r: int, len: nat)
    ensures BestOf([r], len, 1) == if r >= len then 0 else -1
  {
    assert BestOf([r], len, 0) == -1;
  }

  lemma BestOfTwo(r: int, q: int, len: nat)
    ensures r < len ==> BestOf([r, q], len, 2) == if q >= len then 1 else -1
  {
    assert BestOf([r, q], len, 0) == -1;
    assert r < len ==> BestOf([r, q], len, 1) == -1;
  }

  lemma TwoGroups()
    ensures BestFitGroups(Lens, 6) == [[0, 1], [2, 3, 4]]
  {
    var order := Items(Lens);
    assert order == [Item(0, 3), Item(1, 3), Item(2, 2), Item(3, 2), Item(4, 2)];
    SortedStays(Longer, order);
    PackAll(order);
    hide SortBy, PackedUpTo;
  }

  lemma PackAll(order: seq<Item>)
    requires order == [Item(0, 3), Item(1, 3), Item(2, 2), Item(3, 2), Item(4, 2)]
    ensures PackedUpTo(6, order, 5).groups == [[0, 1], [2, 3, 4]]
  {
    var p1, p2, p3 := Packs([[0]], [3]), Packs([[0, 1]], [0]), Packs([[0, 1], [2]], [0, 4]);
    var p4, p5 := Packs([[0, 1], [2, 3]], [0, 2]), Packs([[0, 1], [2, 3, 4]], [0, 0]);
    FirstThree();
    LastTwo();
    assert PackedUpTo(6, order, 0) == Packs([], []);
    hide *;
    PackMore(order, 0, Packs([], []), p1);
    PackMore(order, 1, p1, p2);
    PackMore(order, 2, p2, p3);
    PackMore(order, 3, p3, p4);
    PackMore(order, 4, p4, p5);
  }

  lemma FirstThree()
    ensures PackStep(6, Packs([], []), Item(0, 3)) == Packs([[0]], [3])
    ensures PackStep(6, Packs([[0]], [3]), Item(1, 3)) == Packs([[0, 1]], [0])
    ensures PackStep(6, Packs([[0, 1]], [0]), Item(2, 2)) == Packs([[0, 1], [2]], [0, 4])
  {
    BestOfOne(3, 3);
    BestOfOne(0, 2);
    hide BestOf;
    assert [0] + [1] == [0, 1];
  }

  lemma LastTwo()
    ensures PackStep(6, Packs([[0, 1], [2]], [0, 4]), Item(3, 2)) == Packs([[0, 1], [2, 3]], [0, 2])
    ensures PackStep(6, Packs([[0, 1], [2, 3]], [0, 2]), Item(4, 2)) == Packs([[0, 1], [2, 3, 4]], [0, 0])
  {
    BestOfTwo(0, 4, 2);
    BestOfTwo(0, 2, 2);
    hide BestOf;
    assert [2] + [3] == [2, 3] && [2, 3] + [4] == [2, 3, 4];
  }

  lemma PackMore(order: seq<Item>, m: nat, p: Packs, q: Packs)
    requires m < |order| && PackedUpTo(6, order, m) == p
    requires PackStep(6, p, order[m]) == q
    ensures PackedUpTo(6, order, m + 1) == q
  {
  }

  // ---------------------------------------------------------------- the four merges

  function Lone(i: nat, len: nat): seq<Part> {
    [Part(len, [Item(i, len)]), Empty]
  }

  lemma SortTwo(a: Part, b: Part)
    ensures SortDescending([a, b]) == if PartGreater(b, a) then [b, a] else [a, b]
  {
    assert [a, b][1..] == [b] && [b][1..] == [];
    assert SortBy(PartGreater, [b]) == [b];
    assert SortBy(PartGreater, [a, b]) == Insert(PartGreater, a, [b]);
    assert Insert(PartGreater, a, []) == [a];
  }

  lemma MergePair(s: seq<Part>, t: seq<Part>, a: Part, b: Part)
    requires |s| == |t| == 2 && a == PartMerge(s[0], t[1]) && b == PartMerge(s[1], t[0])
    ensures MergeStates(s, t) == if PartGreater(b, a) then [b, a] else [a, b]
  {
    assert Crossed(s, t) == [a, b];
    SortTwo(a, b);
  }

  lemma LoneState(i: nat, len: nat)
    ensures NewState([Item(i, len)], 2) == Lone(i, len)
  {
    var filled := Part(len, [Item(i, len)]);
    assert PartAdd(Empty, Item(i, len)) == filled;
    assert Filled([Item(i, len)], 2) == [filled, Empty];
    SortTwo(filled, Empty);
  }

  lemma AscendingOrder()
    ensures SortedItems(Lens) == [Item(2, 2), Item(3, 2), Item(4, 2), Item(0, 3), Item(1, 3)]
  {
    var twos := [Item(2, 2), Item(3, 2), Item(4, 2)];
    TwosStay(twos);
    InsertLast(Item(1, 3), twos);
    InsertBeforeLast(Item(0, 3), twos, Item(1, 3));
    hide Insert, SeqlenLess;
    assert Items(Lens) == [Item(0, 3)] + ([Item(1, 3)] + twos);
    SortByFirst(SeqlenLess, Item(1, 3), twos);
    SortByFirst(SeqlenLess, Item(0, 3), [Item(1, 3)] + twos);
  }

  lemma TwosStay(twos: seq<Item>)
    requires twos == [Item(2, 2), Item(3, 2), Item(4, 2)]
    ensures SortBy(SeqlenLess, twos) == twos
  {
    SortedStays(SeqlenLess, twos);
  }

  lemma SortByFirst<T>(less: (T, T) -> bool, x: T, s: seq<T>)
    ensures SortBy(less, [x] + s) == Insert(less, x, SortBy(less, s))
  {
    assert ([x] + s)[1..] == s;
  }

  lemma {:induction false} InsertLast(x: Item, s: seq<Item>)
    requires forall i :: 0 <= i < |s| ==> SeqlenLess(s[i], x)
    ensures Insert(SeqlenLess, x, s) == s + [x]
  {
    if s != [] {
      InsertLast(x, s[1..]);
      assert s == [s[0]] + s[1..];
    }
  }

  lemma {:induction false} InsertBeforeLast(x: Item, s: seq<Item>, y: Item)
    requires !SeqlenLess(y, x) && forall i :: 0 <= i < |s| ==> SeqlenLess(s[i], x)
    ensures Insert(SeqlenLess, x, s + [y]) == s + [x, y]
  {
    if s != [] {
      InsertBeforeLast(x, s[1..], y);
      assert (s + [y])[1..] == s[1..] + [y];
      assert s == [s[0]] + s[1..];
    }
  }

  lemma StartOfRun()
    ensures Balances(|Lens|, 2, false)
    ensures InitialStates(Lens, 2, false) == [Lone(2, 2), Lone(3, 2), Lone(4, 2), Lone(0, 3), Lone(1, 3)]
  {
    AscendingOrder();
    var s := SortedItems(Lens);
    OneByOne(s);
    LoneState(2, 2);
    LoneState(3, 2);
    LoneState(4, 2);
    LoneState(0, 3);
    LoneState(1, 3);
    hide NewState, SortedItems, Blocks, Lone;
  }

  lemma {:induction false} OneByOne(s: seq<Item>)
    ensures Blocks(s, 1, |s|) == seq(|s|, i requires 0 <= i < |s| => [s[i]])
  {
    if s != [] {
      OneByOne(s[1..]);
      TimesNext(|s| - 1, 1);
      assert s[..1] == [s[0]];
    }
  }

  /** The states at `i` and then at `j` are the least, and `merged` is their merge. */
  lemma Turn(v: seq<seq<Part>>, i: nat, j: nat, merged: seq<Part>, w: seq<seq<Part>>)
    requires Sized(v, 2) && Separate(v, 2) && i < |v| && j < |v| - 1
    requires forall m :: 0 <= m < |v| ==> !StateLess(v[m], v[i])
    requires forall m :: 0 <= m < |v| - 1 ==> !StateLess(Removed(v, i)[m], Removed(v, i)[j])
    requires merged == MergeStates(v[i], Removed(v, i)[j]) && w == Removed(Removed(v, i), j) + [merged]
    ensures Sized(w, 2) && Separate(w, 2) && |w| > 0 && Settled(w, 2) == Settled(v, 2)
  {
    hide Separate, Settled, StateLess, MergeStates;
    assert w == Next(v, 2, i, j);
    SeparateNext(v, 2, i, j);
    StepSettles(v, 2, i, j);
  }

  /** Both threes meet, then two twos; then the last two joins the pair of threes, and both pairs meet. */
  lemma FourMerges(v: seq<seq<Part>>)
    requires v == [Lone(2, 2), Lone(3, 2), Lone(4, 2), Lone(0, 3), Lone(1, 3)] && Separate(v, 2)
    ensures Sized(v, 2)
    ensures Settled(v, 2) == Last()
  {
    hide *;
    FirstMerge(v, [Lone(2, 2), Lone(3, 2), Lone(4, 2), Threes()]);
    SecondMerge([Lone(2, 2), Lone(3, 2), Lone(4, 2), Threes()], [Lone(2, 2), Threes(), Twos()]);
    ThirdMerge([Lone(2, 2), Threes(), Twos()], [Twos(), Mixed()]);
    FourthMerge([Twos(), Mixed()]);
    LastSettled([Last()], 2);
  }

  lemma RemovedLast<T>(s: seq<T>, x: T)
    ensures Removed(s + [x], |s|) == s
  {
  }

  lemma RemovedLastBut<T>(s: seq<T>, x: T, y: T)
    ensures Removed(s + [x, y], |s|) == s + [y]
  {
  }

  /** A wider state comes first; between single items of one length the larger index does. */
  lemma SpreadFirst(s: seq<Part>, t: seq<Part>)
    requires |s| > 0 && |t| > 0 && Spread(s) < Spread(t)
    ensures !StateLess(s, t)
  {
  }

  lemma LoneItems(x: Item, y: Item)
    ensures ItemsLess([x], [y]) == ItemLess(x, y)
  {
    assert [x][1..] == [] && [y][1..] == [];
  }

  lemma LoneFirst(i: nat, j: nat, len: nat)
    requires i <= j
    ensures !StateLess(Lone(i, len), Lone(j, len))
  {
    LoneItems(Item(j, len), Item(i, len));
  }

  lemma LoneSpread(i: nat, len: nat)
    ensures |Lone(i, len)| == 2 && Spread(Lone(i, len)) == len
  {
  }

  function Threes(): seq<Part> {
    [Part(3, [Item(1, 3)]), Part(3, [Item(0, 3)])]
  }

  function Twos(): seq<Part> {
    [Part(2, [Item(4, 2)]), Part(2, [Item(3, 2)])]
  }

  lemma PairsSpread()
    ensures |Threes()| == 2 && Spread(Threes()) == 0 && |Twos()| == 2 && Spread(Twos()) == 0
  {
  }

  lemma ThreesMeet()
    ensures |Lone(1, 3)| == |Lone(0, 3)| == 2 && MergeStates(Lone(1, 3), Lone(0, 3)) == Threes()
  {
    MergePair(Lone(1, 3), Lone(0, 3), Threes()[0], Threes()[1]);
  }

  lemma TwosMeet()
    ensures |Lone(4, 2)| == |Lone(3, 2)| == 2 && MergeStates(Lone(4, 2), Lone(3, 2)) == Twos()
  {
    MergePair(Lone(4, 2), Lone(3, 2), Twos()[0], Twos()[1]);
  }

  lemma FirstMerge(v: seq<seq<Part>>, w: seq<seq<Part>>)
    requires v == [Lone(2, 2), Lone(3, 2), Lone(4, 2), Lone(0, 3), Lone(1, 3)] && Separate(v, 2)
    requires w == [Lone(2, 2), Lone(3, 2), Lone(4, 2), Threes()]
    ensures Sized(v, 2) && Sized(w, 2) && Separate(w, 2) && Settled(w, 2) == Settled(v, 2)
  {
    hide Separate, Settled, Lone, Threes, StateLess, MergeStates, Removed, Spread;
    LoneSpread(2, 2);
    LoneSpread(3, 2);
    LoneSpread(4, 2);
    LoneSpread(0, 3);
    LoneSpread(1, 3);
    SpreadFirst(Lone(2, 2), Lone(1, 3));
    SpreadFirst(Lone(3, 2), Lone(1, 3));
    SpreadFirst(Lone(4, 2), Lone(1, 3));
    SpreadFirst(Lone(2, 2), Lone(0, 3));
    SpreadFirst(Lone(3, 2), Lone(0, 3));
    SpreadFirst(Lone(4, 2), Lone(0, 3));
    LoneFirst(0, 1, 3);
    LoneFirst(1, 1, 3);
    LoneFirst(0, 0, 3);
    ThreesMeet();
    RemovedLast([Lone(2, 2), Lone(3, 2), Lone(4, 2), Lone(0, 3)], Lone(1, 3));
    RemovedLast([Lone(2, 2), Lone(3, 2), Lone(4, 2)], Lone(0, 3));
    assert v == [Lone(2, 2), Lone(3, 2), Lone(4, 2), Lone(0, 3)] + [Lone(1, 3)];
    assert Removed(v, 4) == [Lone(2, 2), Lone(3, 2), Lone(4, 2)] + [Lone(0, 3)];
    Turn(v, 4, 3, Threes(), w);
  }

  lemma SecondMerge(v: seq<seq<Part>>, w: seq<seq<Part>>)
    requires v == [Lone(2, 2), Lone(3, 2), Lone(4, 2), Threes()] && Separate(v, 2)
    requires w == [Lone(2, 2), Threes(), Twos()]
    ensures Sized(v, 2) && Sized(w, 2) && Separate(w, 2) && Settled(w, 2) == Settled(v, 2)
  {
    hide Separate, Settled, Lone, Threes, Twos, StateLess, MergeStates, Removed, Spread;
    LoneSpread(2, 2);
    LoneSpread(3, 2);
    LoneSpread(4, 2);
    PairsSpread();
    SpreadFirst(Threes(), Lone(4, 2));
    SpreadFirst(Threes(), Lone(3, 2));
    LoneFirst(2, 4, 2);
    LoneFirst(3, 4, 2);
    LoneFirst(4, 4, 2);
    LoneFirst(2, 3, 2);
    LoneFirst(3, 3, 2);
    TwosMeet();
    RemovedLastBut([Lone(2, 2), Lone(3, 2)], Lone(4, 2), Threes());
    RemovedLastBut([Lone(2, 2)], Lone(3, 2), Threes());
    assert v == [Lone(2, 2), Lone(3, 2)] + [Lone(4, 2), Threes()];
    assert Removed(v, 2) == [Lone(2, 2)] + [Lone(3, 2), Threes()];
    Turn(v, 2, 1, Twos(), w);
  }

  function Mixed(): seq<Part> {
    [Part(5, [Item(2, 2), Item(0, 3)]), Part(3, [Item(1, 3)])]
  }

  function Last(): seq<Part> {
    [Part(7, [Item(2, 2), Item(0, 3), Item(3, 2)]), Part(5, [Item(1, 3), Item(4, 2)])]
  }

  lemma OneTwoMeetsThrees()
    ensures |Lone(2, 2)| == |Threes()| == |Mixed()| == 2 && MergeStates(Lone(2, 2), Threes()) == Mixed()
      && Spread(Mixed()) == 2
  {
    MergePair(Lone(2, 2), Threes(), Mixed()[0], Mixed()[1]);
  }

  lemma AllMeet()
    ensures |Mixed()| == |Twos()| == |Last()| == 2 && MergeStates(Mixed(), Twos()) == Last()
  {
    MergePair(Mixed(), Twos(), Last()[0], Last()[1]);
  }

  /** Both states have spread 0; the one with the larger sums comes first. */
  lemma PairsOrder()
    ensures !StateLess(Twos(), Threes()) && !StateLess(Threes(), Threes()) && !StateLess(Twos(), Twos())
    ensures !StateLess(Mixed(), Mixed())
  {
    StateLessOrder(Threes(), Threes(), Threes());
    StateLessOrder(Twos(), Twos(), Twos());
    StateLessOrder(Mixed(), Mixed(), Mixed());
  }

  lemma ThirdMerge(v: seq<seq<Part>>, w: seq<seq<Part>>)
    requires v == [Lone(2, 2), Threes(), Twos()] && Separate(v, 2) && w == [Twos(), Mixed()]
    ensures Sized(v, 2) && Sized(w, 2) && Separate(w, 2) && Settled(w, 2) == Settled(v, 2)
  {
    hide Separate, Settled, Lone, Threes, Twos, Mixed, StateLess, MergeStates, Removed, Spread;
    LoneSpread(2, 2);
    PairsSpread();
    SpreadFirst(Threes(), Lone(2, 2));
    SpreadFirst(Twos(), Lone(2, 2));
    LoneFirst(2, 2, 2);
    PairsOrder();
    OneTwoMeetsThrees();
    RemovedFirst(Lone(2, 2), [Threes(), Twos()]);
    RemovedFirst(Threes(), [Twos()]);
    assert v == [Lone(2, 2)] + [Threes(), Twos()];
    assert Removed(v, 0) == [Threes()] + [Twos()];
    Turn(v, 0, 0, Mixed(), w);
  }

  lemma RemovedFirst<T>(x: T, s: seq<T>)
    ensures Removed([x] + s, 0) == s
  {
  }

  lemma FourthMerge(v: seq<seq<Part>>)
    requires v == [Twos(), Mixed()] && Separate(v, 2)
    ensures Sized(v, 2) && Sized([Last()], 2) && Settled([Last()], 2) == Settled(v, 2)
  {
    hide Separate, Settled, Twos, Mixed, Last, StateLess, MergeStates, Removed, Spread;
    PairsSpread();
    OneTwoMeetsThrees();
    AllMeet();
    SpreadFirst(Twos(), Mixed());
    PairsOrder();
    RemovedLast([Twos()], Mixed());
    RemovedLast([], Twos());
    assert v == [Twos()] + [Mixed()];
    assert Removed(v, 1) == [] + [Twos()];
    Turn(v, 1, 0, Last(), [Last()]);
  }

  // ---------------------------------------------------------------- the part over the limit

  /** The attention masks of a batch of five samples, three columns wide. */
  const Masks: seq<seq<bool>> := [
    [true, true, true], [true, true, true], [true, true, false], [true, true, false], [true, true, false]]

  lemma TokensOfThree(mask: seq<bool>, third: bool)
    requires mask == [true, true, third]
    ensures CountTokens(mask) == if third then 3 else 2
  {
    var last, two := [third], [true, third];
    assert last[1..] == [] && two[1..] == last && mask[1..] == two;
    assert CountTokens(last) == if third then 1 else 0;
    assert CountTokens(two) == 1 + CountTokens(last);
  }

  lemma MaskLengths()
    ensures Lengths(Masks) == Lens
  {
    TokensOfThree(Masks[0], true);
    TokensOfThree(Masks[1], true);
    TokensOfThree(Masks[2], false);
    TokensOfThree(Masks[3], false);
    TokensOfThree(Masks[4], false);
    hide CountTokens;
  }

  /**
   * A batch accepted by `get_iterator_dynamic` with a limit of 6 tokens: all sequences fit into two groups, so two
   * micro-batches are made, but balancing puts 7 tokens into the first.
   */
  lemma LimitExceeded()
    ensures |Masks| == 5 && (forall i :: 0 <= i < 5 ==> |Masks[i]| == 3) && Lengths(Masks) == Lens
    ensures MicroBatchCount(|BestFitGroups(Lengths(Masks), 6)|, None, 0, None) == 2
    ensures Balances(|Lens|, 2, false) && !Roomy(Lens, 6, 2)
    ensures SumOf(Lengths(Masks), AllAscending(Differenced(Lengths(Masks), 2, false))[0]) == 7
  {
    MaskLengths();
    TwoGroups();
    CountOfTwo();
    NotRoomy();
    FirstPart();
    hide BestFitGroups, Roomy, Differenced, Ascending, SumOf, Lengths, MicroBatchCount;
    AscendingKeeps(Lens, [2, 0, 3]);
    SevenTokens();
  }

  lemma CountOfTwo()
    ensures MicroBatchCount(2, None, 0, None) == 2
  {
  }

  lemma FirstPart()
    ensures Balances(|Lens|, 2, false) && Differenced(Lens, 2, false)[0] == [2, 0, 3]
  {
    StartOfRun();
    InitialPool(Lens, 2, false);
    hide *;
    FourMerges(InitialStates(Lens, 2, false));
    FirstIndices(Lens, 2);
    ThreeIndices();
  }

  lemma ThreeIndices()
    ensures Indices([Item(2, 2), Item(0, 3), Item(3, 2)]) == [2, 0, 3]
  {
  }

  lemma FirstIndices(lens: seq<nat>, k: nat)
    requires Balances(|lens|, k, false)
    ensures Differenced(lens, k, false)[0] == Indices(Settled(InitialStates(lens, k, false), k)[0].items)
  {
    hide Settled, InitialStates, Indices;
  }

  lemma SevenTokens()
    ensures SumOf(Lens, [2, 0, 3]) == 7
  {
    assert [2, 0, 3][1..] == [0, 3] && [0, 3][1..] == [3] && [3][1..] == [];
    assert SumOf(Lens, [3]) == 2 && SumOf(Lens, [0, 3]) == 5;
  }

  lemma NotRoomy()
    ensures !Roomy(Lens, 6, 2)
  {
    var r := Range(5);
    assert r == [0, 1, 2, 3, 4] && r[1..] == [1, 2, 3, 4] && [1, 2, 3, 4][1..] == [2, 3, 4] && [2, 3, 4][1..] == [3, 4];
    assert [3, 4][1..] == [4] && [4][1..] == [];
    assert AllTokens(Lens) == 12;
    assert Longest(Lens) >= Lens[0];
  }
}
