/** `get_seqlen_balanced_partitions`, `get_iterator_dynamic` and `get_reverse_idx`. */
module MicroBatches {
  import opened Wrappers
  import opened Arithmetic
  import opened Lists
  import opened Sorting
  import opened Partitions
  import opened KarmarkarKarp
  import opened BestFit
  import opened PackingBounds

  // ---------------------------------------------------------------- balanced partitions

  predicate Below(a: nat, b: nat) {
    a < b
  }

  function Ascending(group: seq<nat>): (r: seq<nat>)
    ensures |r| == |group|
  {
    SortBy(Below, group)
  }

  function AllAscending(groups: seq<seq<nat>>): (r: seq<seq<nat>>)
    ensures |r| == |groups|
  {
    seq(|groups|, g requires 0 <= g < |groups| => Ascending(groups[g]))
  }

  ghost predicate IsAscending(group: seq<nat>) {
    forall a, b :: 0 <= a < b < |group| ==> group[a] <= group[b]
  }

  lemma AscendingKeeps(lens: seq<nat>, group: seq<nat>)
    ensures multiset(Ascending(group)) == multiset(group)
    ensures SumOf(lens, Ascending(group)) == SumOf(lens, group)
    ensures IsAscending(Ascending(group))
  {
    SortByMultiset(Below, group);
    SortBySorted(Below, group);
    SumOfPermutation(lens, Ascending(group), group);
  }

  lemma {:induction false} AscendingCover(groups: seq<seq<nat>>)
    ensures Cover(AllAscending(groups)) == Cover(groups)
  {
    if groups != [] {
      SortByMultiset(Below, groups[0]);
      assert AllAscending(groups)[1..] == AllAscending(groups[1..]);
      AscendingCover(groups[1..]);
    }
  }

  /** Sorting the groups keeps their sizes, their loads and the range of their indices. */
  lemma SortedGroups(lens: seq<nat>, groups: seq<seq<nat>>)
    ensures forall g :: 0 <= g < |groups| ==>
      |AllAscending(groups)[g]| == |groups[g]| && SumOf(lens, AllAscending(groups)[g]) == SumOf(lens, groups[g])
    ensures forall g :: 0 <= g < |groups| ==> IsAscending(AllAscending(groups)[g])
  {
    hide SumOf, IsAscending;
    forall g | 0 <= g < |groups|
      ensures SumOf(lens, AllAscending(groups)[g]) == SumOf(lens, groups[g]) && IsAscending(AllAscending(groups)[g])
    {
      AscendingKeeps(lens, groups[g]);
    }
  }

  lemma SortedInRange(group: seq<nat>, n: nat)
    requires forall a :: 0 <= a < |group| ==> group[a] < n
    ensures forall a :: 0 <= a < |Ascending(group)| ==> Ascending(group)[a] < n
  {
    SortByMultiset(Below, group);
    var sorted := Ascending(group);
    forall a | 0 <= a < |sorted|
      ensures sorted[a] < n
    {
      assert sorted[a] in multiset(sorted);
      assert sorted[a] in group;
    }
  }

  lemma SortedSizes(groups: seq<seq<nat>>, n: nat)
    requires EqualSizes(groups, n)
    ensures EqualSizes(AllAscending(groups), n)
  {
    hide Ascending;
    var sorted := AllAscending(groups);
    forall g | 0 <= g < |sorted|
      ensures |sorted[g]| * |sorted| == n
    {
      assert |groups[g]| * |groups| == n;
    }
  }

  /** Sorting the parts keeps everything `karmarkar_karp` guarantees about them. */
  lemma AscendingBalanced(lens: seq<nat>, k: nat, equalSize: bool, parts: seq<seq<nat>>)
    requires k > 0 && Fits(|lens|, k, equalSize) && Balanced(lens, k, equalSize, parts)
    ensures Balanced(lens, k, equalSize, AllAscending(parts))
  {
    hide SpreadBound, SumOf, Fits, Cover, Ascending, EqualSizes, SortedBy, Min;
    AscendingCover(parts);
    SortedGroups(lens, parts);
    forall g | 0 <= g < k
      ensures forall a :: 0 <= a < |AllAscending(parts)[g]| ==> AllAscending(parts)[g][a] < |lens|
    {
      SortedInRange(parts[g], |lens|);
    }
    if equalSize {
      SortedSizes(parts, |lens|);
    }
  }

  /** Every part has an index and every index a part. */
  ghost predicate Complete(parts: seq<seq<nat>>, k: nat, n: nat) {
    && |parts| == k && (forall g :: 0 <= g < k ==> parts[g] != [])
    && forall i :: 0 <= i < n ==> InSomeGroup(parts, i)
  }

  lemma BalancedComplete(lens: seq<nat>, k: nat, equalSize: bool, parts: seq<seq<nat>>)
    requires 0 < k <= |lens| && Fits(|lens|, k, equalSize) && Balanced(lens, k, equalSize, parts)
    ensures Complete(parts, k, |lens|)
  {
    PartitionMeans(parts, |lens|);
  }

  /** `_check_and_sort_partitions` */
  method SortParts(parts: seq<seq<nat>>, k: nat, n: nat) returns (sorted: seq<seq<nat>>)
    requires Complete(parts, k, n)
    ensures sorted == AllAscending(parts)
  {
    hide Ascending;
    sorted := [];
    for g := 0 to k
      invariant |sorted| == g && forall h :: 0 <= h < g ==> sorted[h] == Ascending(parts[h])
    {
      assert |parts[g]| > 0;
      sorted := sorted + [Ascending(parts[g])];
    }
    assert forall i :: 0 <= i < n ==> InSomeGroup(parts, i);
  }

  /**
   * `get_seqlen_balanced_partitions`: it returns exactly for 1 <= k <= n (and k dividing n for equal sizes).
   * The assertions of `_check_and_sort_partitions` are those of the code; they cannot fail.
   */
  method BalancedPartitions(lens: seq<nat>, k: nat, equalSize: bool) returns (r: Outcome<seq<seq<nat>>>)
    ensures r.Returned? <==> 0 < k <= |lens| && Fits(|lens|, k, equalSize)
    ensures r.Returned? ==>
      r.value == AllAscending(Differenced(lens, k, equalSize)) && Balanced(lens, k, equalSize, r.value)
    ensures r.Returned? ==> forall g :: 0 <= g < k ==> r.value[g] != [] && IsAscending(r.value[g])
  {
    if |lens| < k {
      return Raised;
    }
    var parts :- Balance(lens, k, equalSize);
    hide *;
    BalancedComplete(lens, k, equalSize, parts);
    assert forall i :: 0 <= i < |lens| ==> InSomeGroup(parts, i);
    var sorted := SortParts(parts, k, |lens|);
    AscendingBalanced(lens, k, equalSize, parts);
    SortedGroups(lens, parts);
    r := Returned(sorted);
  }

  // ---------------------------------------------------------------- the token bound

  /** The longest sequence. */
  function Longest(lens: seq<nat>): (m: nat)
    ensures forall i :: 0 <= i < |lens| ==> lens[i] <= m
    ensures lens != [] ==> m in lens
  {
    if lens == [] then 0 else
      var rest := Longest(lens[1..]);
      if lens[0] > rest then lens[0] else rest
  }

  lemma MaxLenBelow(items: seq<Item>, m: nat)
    requires forall i :: 0 <= i < |items| ==> items[i].len <= m
    ensures MaxLen(items) <= m
  {
  }

  lemma {:induction false} WidestBelow(blocks: seq<seq<Item>>, k: nat, m: nat)
    requires forall b, i :: 0 <= b < |blocks| && 0 <= i < |blocks[b]| ==> blocks[b][i].len <= m
    ensures WidestBlock(blocks, k) <= m
  {
    if blocks != [] {
      MaxLenBelow(blocks[0], m);
      WidestBelow(blocks[1..], k, m);
    }
  }

  lemma {:induction false} BlocksFromItems(sorted: seq<Item>, size: nat, count: nat, m: nat)
    requires |sorted| == count * size && forall i :: 0 <= i < |sorted| ==> sorted[i].len <= m
    ensures forall b, i :: 0 <= b < count && 0 <= i < size ==> Blocks(sorted, size, count)[b][i].len <= m
  {
    if count > 0 {
      TimesNext(count - 1, size);
      BlocksFromItems(sorted[size..], size, count - 1, m);
    }
  }

  /** Without equal sizes, two parts differ by no more than the longest sequence. */
  lemma SpreadAtMostLongest(lens: seq<nat>, k: nat)
    requires k > 0
    ensures SpreadBound(lens, k, false) <= Longest(lens)
  {
    SortedItemsKeep(lens);
    var sorted := SortedItems(lens);
    forall i | 0 <= i < |sorted|
      ensures sorted[i].len <= Longest(lens)
    {
      assert sorted[i] in multiset(sorted);
      assert sorted[i] in Items(lens);
    }
    BlocksFromItems(sorted, 1, |lens|, Longest(lens));
    WidestBelow(InitialBlocks(lens, k, false), k, Longest(lens));
  }

  lemma {:induction false} LoadsAtLeast(lens: seq<nat>, groups: seq<seq<nat>>, n: nat, low: nat)
    requires n <= |groups| && forall g :: 0 <= g < n ==> SumOf(lens, groups[g]) >= low
    ensures Loads(lens, groups, 0, n) >= Product(n, low)
  {
    ProductNext(n, low);
    hide Product;
    if n > 0 {
      LoadsAtLeast(lens, groups, n - 1, low);
    }
  }

  /** With at least as many parts as a packing has groups, the lightest part is within the capacity. */
  lemma LightestWithin(lens: seq<nat>, cap: nat, packing: seq<seq<nat>>, k: nat, parts: seq<seq<nat>>)
    requires IsPacking(lens, cap, packing) && |packing| <= k && k > 0
    requires Balanced(lens, k, false, parts)
    ensures SumOf(lens, parts[k - 1]) <= cap
  {
    hide SpreadBound;
    LoadsAtLeast(lens, parts, k, SumOf(lens, parts[k - 1]));
    LoadsAtMost(lens, packing, 0, |packing|, cap);
    SameTotal(lens, parts, packing);
    ProductMonotone(|packing|, k, cap);
    if SumOf(lens, parts[k - 1]) > cap {
      ProductGrows(k, cap, SumOf(lens, parts[k - 1]));
    }
  }

  lemma {:induction false} ProductGrows(k: nat, a: nat, b: nat)
    requires k > 0 && a < b
    ensures Product(k, a) < Product(k, b)
  {
    ProductNext(k, a);
    ProductNext(k, b);
    ProductNext(k - 1, a);
    ProductNext(k - 1, b);
    hide Product;
    if k > 1 {
      ProductGrows(k - 1, a, b);
    }
  }

  /**
   * The micro-batch bound: balancing over at least as many parts as best-fit decreasing counted leaves no
   * micro-batch with more than the token limit plus one longest sequence.
   */
  lemma MicroBatchBound(lens: seq<nat>, cap: nat, packing: seq<seq<nat>>, k: nat, parts: seq<seq<nat>>, g: nat)
    requires IsPacking(lens, cap, packing) && |packing| <= k && g < k
    requires Balanced(lens, k, false, parts)
    ensures SumOf(lens, parts[g]) <= cap + Longest(lens)
  {
    LightestWithin(lens, cap, packing, k, parts);
    SpreadAtMostLongest(lens, k);
    hide SpreadBound;
    assert SumOf(lens, parts[g]) - SumOf(lens, parts[k - 1]) <= SpreadBound(lens, k, false);
  }

  // ---------------------------------------------------------------- when the limit itself is met

  /** The number of tokens of all sequences. */
  function AllTokens(lens: seq<nat>): nat {
    SumOf(lens, Range(|lens|))
  }

  lemma TokensOfParts(lens: seq<nat>, parts: seq<seq<nat>>)
    requires IsPartition(parts, |lens|)
    ensures Loads(lens, parts, 0, |parts|) == AllTokens(lens)
  {
    ConcatFacts(lens, parts);
    SumOfPermutation(lens, Concat<nat>(parts), Range(|lens|));
  }

  /**
   * If no part is lighter than `top` by more than `d`, then `n` copies of `top` exceed the first `n` parts by at most
   * `d` for each other part.
   */
  lemma {:induction false} NearTop(lens: seq<nat>, parts: seq<seq<nat>>, g: nat, n: nat, d: nat)
    requires g < |parts| && n <= |parts|
    requires forall h :: 0 <= h < |parts| ==> SumOf(lens, parts[g]) - SumOf(lens, parts[h]) <= d
    ensures Product(n, SumOf(lens, parts[g])) <= Loads(lens, parts, 0, n) + Product(if g < n then n - 1 else n, d)
  {
    ProductNext(n, SumOf(lens, parts[g]));
    ProductNext(n, d);
    if n > 0 {
      ProductNext(n - 1, d);
      LoadsNext(lens, parts, 0, n - 1);
      NearTop(lens, parts, g, n - 1, d);
      hide Product, SumOf, Loads;
    } else {
      hide SumOf;
    }
  }

  /** `k` times any part is at most all tokens plus `k - 1` longest sequences. */
  lemma HeaviestBound(lens: seq<nat>, k: nat, parts: seq<seq<nat>>, g: nat)
    requires k > 0 && g < k && Balanced(lens, k, false, parts)
    ensures Product(k, SumOf(lens, parts[g])) <= AllTokens(lens) + Product(k - 1, Longest(lens))
  {
    SpreadAtMostLongest(lens, k);
    assert forall h :: 0 <= h < k ==> SumOf(lens, parts[g]) - SumOf(lens, parts[h]) <= SpreadBound(lens, k, false);
    hide SpreadBound, SumOf;
    TokensOfParts(lens, parts);
    NearTop(lens, parts, g, k, Longest(lens));
  }

  /**
   * The limit is met if all tokens and `k - 1` longest sequences are together less than `k` parts just over the limit.
   */
  predicate Roomy(lens: seq<nat>, cap: nat, k: nat)
    requires k > 0
  {
    AllTokens(lens) + Product(k - 1, Longest(lens)) < Product(k, cap + 1)
  }

  lemma RoomyMeetsLimit(lens: seq<nat>, cap: nat, k: nat, parts: seq<seq<nat>>, g: nat)
    requires k > 0 && g < k && Balanced(lens, k, false, parts) && Roomy(lens, cap, k)
    ensures SumOf(lens, parts[g]) <= cap
  {
    HeaviestBound(lens, k, parts, g);
    hide AllTokens, SumOf, Longest, Balanced;
    if SumOf(lens, parts[g]) > cap {
      ProductCommutes(k, cap + 1);
      ProductCommutes(k, SumOf(lens, parts[g]));
      ProductMonotone(cap + 1, SumOf(lens, parts[g]), k);
    }
  }

  /** What is known of the tokens of one of `k` micro-batches, and that the limit is met if there is room. */
  ghost predicate LoadWithin(lens: seq<nat>, cap: nat, k: nat, load: nat) {
    && load <= cap + Longest(lens)
    && (k > 0 ==> Product(k, load) <= AllTokens(lens) + Product(k - 1, Longest(lens)))
    && (k > 0 && Roomy(lens, cap, k) ==> load <= cap)
  }

  lemma LimitsMet(lens: seq<nat>, cap: nat, packing: seq<seq<nat>>, k: nat, parts: seq<seq<nat>>)
    requires k > 0 && |parts| == k && IsPacking(lens, cap, packing) && |packing| <= k && Balanced(lens, k, false, parts)
    ensures forall g :: 0 <= g < |parts| ==> LoadWithin(lens, cap, |parts|, SumOf(lens, parts[g]))
  {
    hide IsPacking, Balanced, AllTokens, Roomy, Longest, Product, SumOf;
    forall g | 0 <= g < k
      ensures LoadWithin(lens, cap, k, SumOf(lens, parts[g]))
    {
      MicroBatchBound(lens, cap, packing, k, parts, g);
      HeaviestBound(lens, k, parts, g);
      if Roomy(lens, cap, k) {
        RoomyMeetsLimit(lens, cap, k, parts, g);
      }
    }
  }

  // ---------------------------------------------------------------- the dynamic iterator

  /**
   * A value of the batch dictionary: a tensor or a list with one entry per sample, or something else, which is dropped.
   */
  datatype Column<V> = Rows(rows: seq<V>) | Other

  /** The smallest multiple of `b` that is at least `a`. */
  function RoundUpDivisible(a: nat, b: nat): nat
    requires b > 0
  {
    (a + b - 1) / b * b
  }

  lemma RoundUpIsProduct(a: nat, b: nat)
    requires b > 0
    ensures RoundUpDivisible(a, b) == Product((a + b - 1) / b, b)
  {
  }

  lemma RoundUpIsLeast(a: nat, b: nat, m: nat)
    requires b > 0
    ensures a <= RoundUpDivisible(a, b) < a + b
    ensures RoundUpDivisible(a, b) % b == 0
    ensures a <= Product(m, b) ==> RoundUpDivisible(a, b) <= Product(m, b)
  {
    hide *;
    var q := (a + b - 1) / b;
    RoundUpIsProduct(a, b);
    Remainder(a + b - 1, b);
    LeastProduct(a, b, q, (a + b - 1) % b, m);
  }

  lemma LeastProduct(a: nat, b: nat, q: nat, r: nat, m: nat)
    requires b > 0 && a + b - 1 == Product(q, b) + r && r < b
    ensures a <= Product(q, b) < a + b && Product(q, b) % b == 0
    ensures a <= Product(m, b) ==> Product(q, b) <= Product(m, b)
  {
    hide Product;
    QuotientUnique(Product(q, b), b, q, 0);
    if q > m {
      ProductMonotone(m + 1, q, b);
      ProductNext(m + 1, b);
    } else {
      ProductMonotone(q, m, b);
    }
  }

  function Max(a: nat, b: nat): nat {
    if b > a then b else a
  }

  /** Enough micro-batches for this rank and the others, in a multiple of the divisor. */
  predicate IsEnough(k: nat, groups: nat, minimum: Option<nat>, elsewhere: nat, divisor: Option<nat>) {
    && k >= groups && k >= elsewhere
    && (minimum.Some? ==> k >= minimum.value)
    && (divisor.Some? ==> divisor.value > 0 && k % divisor.value == 0)
  }

  /** No smaller number of micro-batches is enough. */
  ghost predicate IsLeastCount(k: nat, groups: nat, minimum: Option<nat>, elsewhere: nat, divisor: Option<nat>) {
    && IsEnough(k, groups, minimum, elsewhere, divisor)
    && forall m: nat :: IsEnough(m, groups, minimum, elsewhere, divisor) ==> k <= m
  }

  /** At least one micro-batch and at most one for each sample is enough. */
  ghost predicate CanCut(n: nat, groups: nat, minimum: Option<nat>, elsewhere: nat, divisor: Option<nat>) {
    exists k: nat :: 0 < k <= n && IsLeastCount(k, groups, minimum, elsewhere, divisor)
  }

  /**
   * The number of micro-batches: the groups counted locally, the configured minimum and the other ranks' counts,
   * rounded up.
   */
  function MicroBatchCount(groups: nat, minimum: Option<nat>, elsewhere: nat, divisor: Option<nat>): (k: nat)
    requires divisor != Some(0)
    ensures IsLeastCount(k, groups, minimum, elsewhere, divisor)
  {
    var local := if minimum.Some? then Max(minimum.value, groups) else groups;
    var synced := Max(local, elsewhere);
    if divisor.Some? then
      RoundedIsLeast(synced, divisor.value);
      RoundUpDivisible(synced, divisor.value)
    else synced
  }

  lemma RoundedIsLeast(a: nat, b: nat)
    requires b > 0
    ensures RoundUpDivisible(a, b) >= a && RoundUpDivisible(a, b) % b == 0
    ensures forall m: nat :: a <= m && m % b == 0 ==> RoundUpDivisible(a, b) <= m
  {
    hide *;
    RoundUpIsLeast(a, b, 0);
    forall m: nat | a <= m && m % b == 0
      ensures RoundUpDivisible(a, b) <= m
    {
      Remainder(m, b);
      RoundUpIsLeast(a, b, m / b);
    }
  }

  lemma LeastCountMeans(n: nat, k: nat, groups: nat, minimum: Option<nat>, elsewhere: nat, divisor: Option<nat>)
    requires IsLeastCount(k, groups, minimum, elsewhere, divisor)
    ensures k >= groups && (CanCut(n, groups, minimum, elsewhere, divisor) <==> 0 < k <= n)
  {
  }

  lemma NoneByZero(n: nat, groups: nat, minimum: Option<nat>, elsewhere: nat)
    ensures !CanCut(n, groups, minimum, elsewhere, Some(0))
  {
  }

  /** `elsewhere` is what the all-reduce over the ranks' own counts gives. */
  ghost predicate IsReduced(own: seq<nat>, elsewhere: nat) {
    elsewhere in own && forall i :: 0 <= i < |own| ==> own[i] <= elsewhere
  }

  /** Ranks that exchange the largest of their own counts cut their batches into equally many micro-batches. */
  lemma RanksAgree(groups: seq<nat>, minimum: Option<nat>, own: seq<nat>, elsewhere: nat, divisor: Option<nat>,
      counts: seq<nat>)
    requires |own| == |groups| == |counts| && IsReduced(own, elsewhere)
    requires forall i :: 0 <= i < |own| ==> IsLeastCount(own[i], groups[i], minimum, 0, None)
    requires forall i :: 0 <= i < |counts| ==> IsLeastCount(counts[i], groups[i], minimum, elsewhere, divisor)
    ensures forall i, j :: 0 <= i < |counts| && 0 <= j < |counts| ==> counts[i] == counts[j]
  {
    forall i, j | 0 <= i < |counts| && 0 <= j < |counts|
      ensures counts[i] <= counts[j]
    {
      assert IsEnough(own[i], groups[i], minimum, 0, None);
      assert own[i] <= elsewhere;
      assert IsEnough(counts[j], groups[i], minimum, elsewhere, divisor);
    }
  }

  /** The positions of the tokens of a sample. */
  ghost function Attended(mask: seq<bool>): set<nat> {
    set i: nat | i < |mask| && mask[i]
  }

  function CountTokens(mask: seq<bool>): nat {
    if mask == [] then 0 else (if mask[0] then 1 else 0) + CountTokens(mask[1..])
  }

  ghost function Shifted(a: set<nat>): set<nat> {
    set i: nat | i in a :: i + 1
  }

  lemma AttendedNext(mask: seq<bool>)
    requires mask != []
    ensures Attended(mask) == (if mask[0] then {0} else {}) + Shifted(Attended(mask[1..]))
  {
    forall i | i in Attended(mask) && i > 0
      ensures i in Shifted(Attended(mask[1..]))
    {
      assert i - 1 in Attended(mask[1..]);
    }
  }

  lemma {:induction false} TokensAreAttended(mask: seq<bool>)
    ensures CountTokens(mask) == |Attended(mask)| <= |mask|
  {
    if mask == [] {
      assert Attended(mask) == {};
    } else {
      TokensAreAttended(mask[1..]);
      AttendedNext(mask);
      hide Attended;
      ShiftedSize(Attended(mask[1..]));
      assert 0 !in Shifted(Attended(mask[1..]));
    }
  }

  lemma {:induction false} ShiftedSize(a: set<nat>)
    ensures |Shifted(a)| == |a|
  {
    if a == {} {
      assert Shifted(a) == {};
    } else {
      var x :| x in a;
      ShiftedSize(a - {x});
      ShiftedRest(a, x);
      assert x + 1 !in Shifted(a - {x});
    }
  }

  lemma ShiftedRest(a: set<nat>, x: nat)
    requires x in a
    ensures Shifted(a) == Shifted(a - {x}) + {x + 1}
  {
    forall y: nat | y in Shifted(a) && y != x + 1
      ensures y in Shifted(a - {x})
    {
      assert y - 1 in a - {x};
    }
  }

  /** The effective lengths: how many tokens each sample has. */
  function Lengths(masks: seq<seq<bool>>): (r: seq<nat>)
    ensures |r| == |masks| && forall i :: 0 <= i < |masks| ==> r[i] == |Attended(masks[i])| <= |masks[i]|
  {
    assert forall i :: 0 <= i < |masks| ==> CountTokens(masks[i]) == |Attended(masks[i])| <= |masks[i]| by {
      forall i | 0 <= i < |masks|
        ensures CountTokens(masks[i]) == |Attended(masks[i])| <= |masks[i]|
      {
        TokensAreAttended(masks[i]);
      }
    }
    seq(|masks|, i requires 0 <= i < |masks| => CountTokens(masks[i]))
  }

  lemma LengthsWithin(masks: seq<seq<bool>>, width: nat, cap: nat)
    requires forall i :: 0 <= i < |masks| ==> |masks[i]| == width
    ensures |Lengths(masks)| == |masks|
    ensures width <= cap ==> forall i :: 0 <= i < |masks| ==> Lengths(masks)[i] <= cap
  {
    hide CountTokens, Attended;
  }

  lemma FitsUnequal(n: nat, k: nat)
    ensures k > 0 ==> Fits(n, k, false)
  {
  }

  lemma BalancedShape(lens: seq<nat>, k: nat, parts: seq<seq<nat>>)
    requires k > 0 && Balanced(lens, k, false, parts)
    ensures |parts| == k && IsPartition(parts, |lens|)
  {
  }

  /** `[value[idx] for idx in partition]`. */
  function Picked<V>(rows: seq<V>, part: seq<nat>): (r: seq<V>)
    requires forall a :: 0 <= a < |part| ==> part[a] < |rows|
    ensures |r| == |part|
  {
    seq(|part|, a requires 0 <= a < |part| => rows[part[a]])
  }

  /** A micro-batch: every column that has rows, cut down to the samples of `part`, in the order of `part`. */
  ghost predicate IsMicroBatch<V>(batch: map<string, Column<V>>, n: nat, part: seq<nat>, micro: map<string, seq<V>>) {
    && (forall a :: 0 <= a < |part| ==> part[a] < n)
    && (forall key :: key in micro <==> key in batch && batch[key].Rows?)
    && forall key :: key in micro ==>
      && |batch[key].rows| == n && |micro[key]| == |part|
      && forall a :: 0 <= a < |part| ==> micro[key][a] == batch[key].rows[part[a]]
  }

  /** `get_iterator_dynamic` on a dictionary whose columns all have one row per sample. */
  method GetIteratorDynamic<V>(batch: map<string, Column<V>>, masks: seq<seq<bool>>, width: nat, maxTokens: nat,
      minimum: Option<nat>, elsewhere: nat, divisor: Option<nat>)
    returns (r: Outcome<(seq<map<string, seq<V>>>, seq<seq<nat>>)>)
    requires forall i :: 0 <= i < |masks| ==> |masks[i]| == width
    requires forall key :: key in batch && batch[key].Rows? ==> |batch[key].rows| == |masks|
    ensures r.Returned? <==> (width <= maxTokens
      && CanCut(|masks|, |BestFitGroups(Lengths(masks), maxTokens)|, minimum, elsewhere, divisor))
    ensures r.Returned? ==>
      var lens := Lengths(masks);
      var (micros, parts) := r.value;
      && |micros| == |parts|
      && IsLeastCount(|micros|, |BestFitGroups(lens, maxTokens)|, minimum, elsewhere, divisor)
      && IsPartition(parts, |masks|)
      && (forall g :: 0 <= g < |parts| ==> parts[g] != [] && IsAscending(parts[g]))
      && (forall g :: 0 <= g < |parts| ==> IsMicroBatch(batch, |masks|, parts[g], micros[g]))
      && parts == AllAscending(Differenced(lens, |parts|, false))
      && forall g :: 0 <= g < |parts| ==> LoadWithin(lens, maxTokens, |parts|, SumOf(lens, parts[g]))
  {
    hide *;
    if maxTokens < width {
      LengthsWithin(masks, width, maxTokens);
      return Raised;
    }
    var lens := Lengths(masks);
    LengthsWithin(masks, width, maxTokens);
    var packed := BestFitDecreasing(lens, maxTokens);
    var packing := packed.value;
    if divisor == Some(0) {
      NoneByZero(|masks|, |packing|, minimum, elsewhere);
      return Raised;
    }
    var k := MicroBatchCount(|packing|, minimum, elsewhere, divisor);
    LeastCountMeans(|masks|, k, |packing|, minimum, elsewhere, divisor);
    FitsUnequal(|lens|, k);
    var balanced := BalancedPartitions(lens, k, false);
    if balanced.Raised? {
      return Raised;
    }
    var parts := balanced.value;
    BalancedShape(lens, k, parts);
    var micros := CutColumns(batch, |masks|, lens, k, parts);
    LimitsMet(lens, maxTokens, packing, k, parts);
    r := Returned((micros, parts));
  }

  /** The loops that build the micro-batches. */
  method CutColumns<V>(batch: map<string, Column<V>>, n: nat, lens: seq<nat>, k: nat, parts: seq<seq<nat>>)
      returns (micros: seq<map<string, seq<V>>>)
    requires k > 0 && n == |lens| && Balanced(lens, k, false, parts)
    requires forall key :: key in batch && batch[key].Rows? ==> |batch[key].rows| == n
    ensures |micros| == |parts| && forall g :: 0 <= g < |parts| ==> IsMicroBatch(batch, n, parts[g], micros[g])
  {
    micros := [];
    for g := 0 to |parts|
      invariant |micros| == g && forall h :: 0 <= h < g ==> IsMicroBatch(batch, n, parts[h], micros[h])
    {
      var part := parts[g];
      assert forall a :: 0 <= a < |part| ==> part[a] < n;
      var micro := map key | key in batch && batch[key].Rows? :: Picked(batch[key].rows, part);
      micros := micros + [micro];
    }
  }

  // ---------------------------------------------------------------- back to the original order

  /** Entry `v` of the result is the last place where `v` occurs among the first `n`, or unchanged if there is none. */
  ghost predicate LastPlaces(idxMap: seq<nat>, reverse: seq<nat>, n: nat)
    requires n <= |idxMap| == |reverse|
  {
    forall v :: 0 <= v < |idxMap| ==>
      if exists i :: 0 <= i < n && idxMap[i] == v then
        reverse[v] < n && idxMap[reverse[v]] == v && forall j :: reverse[v] < j < n ==> idxMap[j] != v
      else reverse[v] == idxMap[v]
  }

  /** `get_reverse_idx`: an index outside the list raises. */
  method GetReverseIdx(idxMap: seq<nat>) returns (r: Outcome<seq<nat>>)
    ensures r.Returned? <==> forall i :: 0 <= i < |idxMap| ==> idxMap[i] < |idxMap|
    ensures r.Returned? ==> |r.value| == |idxMap| && LastPlaces(idxMap, r.value, |idxMap|)
    ensures r.Returned? && Injective(idxMap) ==> forall i :: 0 <= i < |idxMap| ==> r.value[idxMap[i]] == i
  {
    var reverse: seq<nat> := idxMap;
    for i := 0 to |idxMap|
      invariant |reverse| == |idxMap|
      invariant forall j :: 0 <= j < i ==> idxMap[j] < |idxMap|
      invariant LastPlaces(idxMap, reverse, i)
    {
      if idxMap[i] >= |idxMap| {
        return Raised;
      }
      NextPlace(idxMap, reverse, i);
      reverse := reverse[idxMap[i] := i];
    }
    PlacesInvert(idxMap, reverse);
    r := Returned(reverse);
  }

  lemma NextPlace(idxMap: seq<nat>, reverse: seq<nat>, i: nat)
    requires i < |idxMap| == |reverse| && idxMap[i] < |idxMap| && LastPlaces(idxMap, reverse, i)
    ensures LastPlaces(idxMap, reverse[idxMap[i] := i], i + 1)
  {
    var next := reverse[idxMap[i] := i];
    forall v | 0 <= v < |idxMap|
      ensures if exists j :: 0 <= j < i + 1 && idxMap[j] == v then
        next[v] < i + 1 && idxMap[next[v]] == v && forall j :: next[v] < j < i + 1 ==> idxMap[j] != v
      else next[v] == idxMap[v]
    {
      assert exists j :: 0 <= j < i + 1 && idxMap[j] == idxMap[i];
      if v != idxMap[i] && exists j :: 0 <= j < i && idxMap[j] == v {
        var j :| 0 <= j < i && idxMap[j] == v;
        assert 0 <= j < i + 1 && idxMap[j] == v;
      }
    }
  }

  lemma PlacesInvert(idxMap: seq<nat>, reverse: seq<nat>)
    requires |idxMap| == |reverse| && LastPlaces(idxMap, reverse, |idxMap|)
    requires forall i :: 0 <= i < |idxMap| ==> idxMap[i] < |idxMap|
    ensures Injective(idxMap) ==> forall i :: 0 <= i < |idxMap| ==> reverse[idxMap[i]] == i
  {
    if Injective(idxMap) {
      forall i | 0 <= i < |idxMap|
        ensures reverse[idxMap[i]] == i
      {
        var v := idxMap[i];
        assert exists j :: 0 <= j < |idxMap| && idxMap[j] == v;
        assert idxMap[reverse[v]] == v;
      }
    }
  }

  ghost predicate Injective(s: seq<nat>) {
    forall i, j :: 0 <= i < j < |s| ==> s[i] != s[j]
  }

  /** What the forward pass yields: the outputs of the micro-batches one after another. */
  function Outputs<V>(rows: seq<V>, parts: seq<seq<nat>>): seq<V>
    requires forall g, a :: 0 <= g < |parts| && 0 <= a < |parts[g]| ==> parts[g][a] < |rows|
  {
    if parts == [] then []
    else Outputs(rows, parts[..|parts| - 1]) + Picked(rows, parts[|parts| - 1])
  }

  lemma PickedSnoc<V>(rows: seq<V>, a: seq<nat>, b: seq<nat>)
    requires (forall i :: 0 <= i < |a| ==> a[i] < |rows|) && forall i :: 0 <= i < |b| ==> b[i] < |rows|
    ensures Picked(rows, a + b) == Picked(rows, a) + Picked(rows, b)
  {
  }

  lemma {:induction false} OutputsArePicked<V>(rows: seq<V>, parts: seq<seq<nat>>)
    requires forall g, a :: 0 <= g < |parts| && 0 <= a < |parts[g]| ==> parts[g][a] < |rows|
    ensures forall a :: 0 <= a < |Concat<nat>(parts)| ==> Concat<nat>(parts)[a] < |rows|
    ensures Outputs(rows, parts) == Picked(rows, Concat<nat>(parts))
  {
    if parts != [] {
      OutputsArePicked(rows, parts[..|parts| - 1]);
      PickedSnoc(rows, Concat<nat>(parts[..|parts| - 1]), parts[|parts| - 1]);
    }
  }

  /** The flattened indices of a partition are a permutation of `0..n-1`. */
  lemma FlattenedPermutes(parts: seq<seq<nat>>, n: nat)
    requires IsPartition(parts, n)
    ensures |Concat<nat>(parts)| == n && Injective(Concat<nat>(parts))
    ensures forall a :: 0 <= a < n ==> Concat<nat>(parts)[a] < n
    ensures forall i :: 0 <= i < n ==> i in Concat<nat>(parts)
  {
    var flat := Concat<nat>(parts);
    ConcatFacts([], parts);
    assert |multiset(flat)| == |multiset(Range(n))|;
    forall a | 0 <= a < |flat|
      ensures flat[a] < n
    {
      assert flat[a] in multiset(flat);
      assert flat[a] in Range(n);
    }
    forall i, j | 0 <= i < j < |flat|
      ensures flat[i] != flat[j]
    {
      RangeOnce(n, flat[i]);
      if flat[i] == flat[j] {
        TwicePresent(flat, i, j);
      }
    }
    forall i | 0 <= i < n
      ensures i in flat
    {
      assert Range(n)[i] == i;
      assert i in multiset(flat);
    }
  }

  /** Reordering the outputs by the reversed indices gives back one output per sample, in the samples' order. */
  lemma OutputsRestored<V>(rows: seq<V>, parts: seq<seq<nat>>, reverse: seq<nat>)
    requires IsPartition(parts, |rows|)
    requires forall g, a :: 0 <= g < |parts| && 0 <= a < |parts[g]| ==> parts[g][a] < |rows|
    requires |reverse| == |Concat<nat>(parts)| && Injective(Concat<nat>(parts))
    requires forall i :: 0 <= i < |reverse| ==> Concat<nat>(parts)[i] < |reverse| && reverse[Concat<nat>(parts)[i]] == i
    ensures |Outputs(rows, parts)| == |rows|
    ensures forall i :: 0 <= i < |reverse| ==> reverse[i] < |Outputs(rows, parts)|
    ensures Picked(Outputs(rows, parts), reverse) == rows
  {
    var flat := Concat<nat>(parts);
    OutputsArePicked(rows, parts);
    FlattenedPermutes(parts, |rows|);
    forall i | 0 <= i < |rows|
      ensures reverse[i] < |flat| && flat[reverse[i]] == i
    {
      assert i in flat;
      var a :| 0 <= a < |flat| && flat[a] == i;
    }
  }
}
