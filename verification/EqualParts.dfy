/** What balancing starts from and how far apart parts may end up, said about any ascending list of the sequences. */
module EqualParts {
  import opened Arithmetic
  import opened Sorting
  import opened Partitions
  import opened Differencing
  import opened KarmarkarKarp

  /** The sequences with their indices, by length and then by index. */
  ghost predicate ByLength(lens: seq<nat>, t: seq<Item>) {
    && multiset(t) == multiset(Items(lens))
    && forall i, j :: 0 <= i < j < |t| ==> t[i].len < t[j].len || (t[i].len == t[j].len && t[i].idx < t[j].idx)
  }

  lemma ShorterIsOrder()
    ensures StrictOrder(SeqlenLess)
  {
  }

  lemma CountedTwice(s: seq<Item>, i: nat, j: nat)
    requires i < j < |s| && s[i] == s[j]
    ensures multiset(s)[s[i]] >= 2
  {
    assert s == s[..j] + s[j..];
    assert s[..j][i] == s[i] && s[j..][0] == s[j];
  }

  lemma NoneTwice(s: seq<Item>, i: nat, j: nat)
    requires Once(multiset(s)) && i < j < |s|
    ensures s[i] != s[j]
  {
    if s[i] == s[j] {
      CountedTwice(s, i, j);
    }
  }

  lemma SortedByLength(lens: seq<nat>)
    ensures ByLength(lens, SortedItems(lens))
  {
    var s := SortedItems(lens);
    SortedItemsKeep(lens);
    ItemsAreOnce(lens);
    ShorterIsOrder();
    SortBySorted(SeqlenLess, Items(lens));
    forall i, j | 0 <= i < j < |s|
      ensures s[i].len < s[j].len || (s[i].len == s[j].len && s[i].idx < s[j].idx)
    {
      NoneTwice(s, i, j);
      assert !SeqlenLess(s[j], s[i]);
    }
  }

  ghost predicate Rising(s: seq<Item>) {
    forall i, j :: 0 <= i < j < |s| ==> SeqlenLess(s[i], s[j])
  }

  lemma RisingFirst(s: seq<Item>, t: seq<Item>)
    requires Rising(s) && Rising(t) && multiset(s) == multiset(t) && s != []
    ensures t != [] && s[0] == t[0] && multiset(s[1..]) == multiset(t[1..])
  {
    assert s[0] in multiset(s);
    assert t[0] in multiset(t);
    var i :| 0 <= i < |s| && s[i] == t[0];
    var j :| 0 <= j < |t| && t[j] == s[0];
    RestOf(s);
    RestOf(t);
  }

  lemma RestOf(s: seq<Item>)
    requires s != []
    ensures multiset(s[1..]) == multiset(s) - multiset{s[0]}
  {
    assert s == [s[0]] + s[1..];
  }

  lemma {:induction false} RisingIsUnique(s: seq<Item>, t: seq<Item>)
    requires Rising(s) && Rising(t) && multiset(s) == multiset(t)
    ensures s == t
  {
    assert |s| == |multiset(s)| == |multiset(t)| == |t|;
    if s != [] {
      RisingFirst(s, t);
      RisingIsUnique(s[1..], t[1..]);
      assert s == [s[0]] + s[1..] && t == [t[0]] + t[1..];
    }
  }

  lemma OneByLength(lens: seq<nat>, t: seq<Item>)
    requires ByLength(lens, t)
    ensures SortedItems(lens) == t && |t| == |lens|
  {
    SortedByLength(lens);
    RisingIsUnique(SortedItems(lens), t);
  }

  /** Where element `i` of block `b` comes from. */
  function Place(b: nat, size: nat, i: nat): nat {
    b * size + i
  }

  lemma PlaceNext(b: nat, size: nat, i: nat)
    requires b > 0
    ensures Place(b, size, i) == size + Place(b - 1, size, i)
  {
    TimesNext(b - 1, size);
  }

  lemma PlaceBelow(b: nat, size: nat, i: nat, count: nat)
    requires b < count && i < size
    ensures Place(b, size, i) < Place(count, size, 0)
    decreases b
  {
    PlaceNext(count, size, 0);
    if b > 0 {
      PlaceNext(b, size, i);
      PlaceBelow(b - 1, size, i, count - 1);
    }
    hide Place;
  }

  lemma {:induction false} BlockAt(t: seq<Item>, size: nat, count: nat, b: nat, i: nat)
    requires |t| == count * size == Place(count, size, 0) && b < count && i < size
    ensures Place(b, size, i) < |t| && |Blocks(t, size, count)[b]| == size
    ensures Blocks(t, size, count)[b][i] == t[Place(b, size, i)]
    decreases count
  {
    PlaceBelow(b, size, i, count);
    PlaceNext(count, size, 0);
    SizeOf(count - 1, size);
    FirstPlace(size, i);
    if b > 0 {
      PlaceNext(b, size, i);
      hide Place;
      BlockAt(t[size..], size, count - 1, b - 1, i);
    }
  }

  lemma FirstPlace(size: nat, i: nat)
    ensures Place(0, size, i) == i
  {
  }

  /** Block `b` holds the `size` neighbours from position `b * size` on. */
  ghost predicate AreNeighbours(t: seq<Item>, size: nat, blocks: seq<seq<Item>>) {
    && |t| == Place(|blocks|, size, 0)
    && (forall b :: 0 <= b < |blocks| ==> |blocks[b]| == size)
    && forall b, i :: 0 <= b < |blocks| && 0 <= i < size ==>
      Place(b, size, i) < |t| && blocks[b][i] == t[Place(b, size, i)]
  }

  lemma BlocksAreNeighbours(t: seq<Item>, size: nat, count: nat, blocks: seq<seq<Item>>)
    requires |t| == Place(count, size, 0) == count * size && blocks == Blocks(t, size, count)
    ensures AreNeighbours(t, size, blocks)
  {
    hide Place, Blocks;
    assert |blocks| == count;
    forall b, i | 0 <= b < count && 0 <= i < size
      ensures |blocks[b]| == size && Place(b, size, i) < |t| && blocks[b][i] == t[Place(b, size, i)]
    {
      BlockAt(t, size, count, b, i);
    }
  }

  lemma SizeOf(count: nat, size: nat)
    ensures Place(count, size, 0) == count * size
  {
  }

  lemma InitialAre(lens: seq<nat>, k: nat)
    requires k > 0
    ensures InitialBlocks(lens, k, false) == Blocks(SortedItems(lens), 1, |lens|)
    ensures Fits(|lens|, k, true) ==> |lens| == |lens| / k * k
    ensures Fits(|lens|, k, true) ==> InitialBlocks(lens, k, true) == Blocks(SortedItems(lens), k, |lens| / k)
  {
    hide Blocks;
    DivisionFits(|lens|, k);
  }

  /** `karmarkar_karp` starts from neighbours in the list by length: `k` at a time for equal sizes, else single ones. */
  lemma StartsFromNeighbours(lens: seq<nat>, k: nat, equalSize: bool, t: seq<Item>)
    requires k > 0 && Fits(|lens|, k, equalSize) && ByLength(lens, t)
    ensures |t| == |lens| && AreNeighbours(t, if equalSize then k else 1, InitialBlocks(lens, k, equalSize))
  {
    hide *;
    OneByLength(lens, t);
    InitialAre(lens, k);
    if equalSize {
      SizeOf(|lens| / k, k);
      BlocksAreNeighbours(t, k, |lens| / k, InitialBlocks(lens, k, true));
    } else {
      SizeOf(|lens|, 1);
      BlocksAreNeighbours(t, 1, |lens|, InitialBlocks(lens, k, false));
    }
  }

  /** The longest and the shortest sequence of each block of `k` neighbours are at most `d` apart. */
  ghost predicate NeighboursWithin(t: seq<Item>, k: nat, d: nat)
    requires k > 0
  {
    forall b: nat :: Place(b, k, 0) < |t| && Place(b, k, k - 1) < |t| ==>
      t[Place(b, k, k - 1)].len - t[Place(b, k, 0)].len <= d
  }

  lemma {:induction false} WidestAtMost(blocks: seq<seq<Item>>, k: nat, d: nat)
    requires forall b :: 0 <= b < |blocks| ==> BlockRange(blocks[b], k) <= d
    ensures WidestBlock(blocks, k) <= d
  {
    hide BlockRange;
    if blocks != [] {
      WidestAtMost(blocks[1..], k, d);
    }
  }

  lemma {:induction false} AscendingEnds(block: seq<Item>)
    requires block != [] && forall i, j :: 0 <= i < j < |block| ==> block[i].len <= block[j].len
    ensures MaxLen(block) == block[|block| - 1].len && MinLen(block) == block[0].len
  {
    if |block| > 1 {
      AscendingEnds(block[1..]);
    }
  }

  /**
   * Parts of equal size differ in their sums by no more than the sequences of a block of `k` neighbours differ in
   * length.
   */
  lemma EqualSpread(lens: seq<nat>, k: nat, parts: seq<seq<nat>>, t: seq<Item>, d: nat)
    requires k > 0 && Fits(|lens|, k, true) && Balanced(lens, k, true, parts)
    requires ByLength(lens, t) && NeighboursWithin(t, k, d)
    ensures forall g, h :: 0 <= g < k && 0 <= h < k ==> SumOf(lens, parts[g]) - SumOf(lens, parts[h]) <= d
  {
    hide IsPartition, EqualSizes, Fits, SumOf, ByLength, NeighboursWithin, AreNeighbours, SpreadBound;
    BoundWithin(lens, k, t, d);
  }

  lemma BoundWithin(lens: seq<nat>, k: nat, t: seq<Item>, d: nat)
    requires k > 0 && Fits(|lens|, k, true) && ByLength(lens, t) && NeighboursWithin(t, k, d)
    ensures SpreadBound(lens, k, true) <= d
  {
    hide ByLength, Fits, InitialBlocks, BlockRange, NeighboursWithin, AreNeighbours;
    StartsFromNeighbours(lens, k, true, t);
    var blocks := InitialBlocks(lens, k, true);
    forall b | 0 <= b < |blocks|
      ensures BlockRange(blocks[b], k) <= d
    {
      BlockWithin(lens, t, k, d, blocks, b);
    }
    WidestAtMost(blocks, k, d);
  }

  lemma BlockWithin(lens: seq<nat>, t: seq<Item>, k: nat, d: nat, blocks: seq<seq<Item>>, b: nat)
    requires ByLength(lens, t) && k > 0 && NeighboursWithin(t, k, d) && b < |blocks| && AreNeighbours(t, k, blocks)
    ensures BlockRange(blocks[b], k) <= d
  {
    hide BlockRange, Place;
    var block := blocks[b];
    assert block[k - 1] == t[Place(b, k, k - 1)] && block[0] == t[Place(b, k, 0)];
    BlockRises(lens, t, k, blocks, b);
    AscendingEnds(block);
    RangeOf(block, k);
  }

  lemma RangeOf(block: seq<Item>, k: nat)
    requires |block| == k > 0
    ensures BlockRange(block, k) == MaxLen(block) - MinLen(block)
  {
    hide MaxLen, MinLen;
  }

  lemma BlockRises(lens: seq<nat>, t: seq<Item>, k: nat, blocks: seq<seq<Item>>, b: nat)
    requires ByLength(lens, t) && k > 0 && b < |blocks| && AreNeighbours(t, k, blocks)
    ensures |blocks[b]| == k && forall i, j :: 0 <= i < j < k ==> blocks[b][i].len <= blocks[b][j].len
  {
    forall i, j | 0 <= i < j < k
      ensures blocks[b][i].len <= blocks[b][j].len
    {
      assert Place(b, k, i) < Place(b, k, j);
    }
  }
}
