/** How many groups best-fit decreasing needs, compared with any packing whatever. */
module PackingBounds {
  import opened Arithmetic
  import opened Lists
  import opened Partitions
  import opened BestFit

  /** The total length in groups `a..b-1`. */
  function Loads(lens: seq<nat>, groups: seq<seq<nat>>, a: nat, b: nat): nat
    requires a <= b <= |groups|
    decreases b - a
  {
    if a == b then 0 else Loads(lens, groups, a, b - 1) + SumOf(lens, groups[b - 1])
  }

  lemma {:induction false} LoadsSplit(lens: seq<nat>, groups: seq<seq<nat>>, a: nat, m: nat, b: nat)
    requires a <= m <= b <= |groups|
    ensures Loads(lens, groups, a, b) == Loads(lens, groups, a, m) + Loads(lens, groups, m, b)
    decreases b - m
  {
    if m < b {
      LoadsSplit(lens, groups, a, m, b - 1);
    }
  }

  lemma OneMoreGroup(lens: seq<nat>, init: seq<seq<nat>>, last: seq<nat>)
    requires multiset(Concat<nat>(init)) == Cover(init)
    ensures multiset(Concat<nat>(init + [last])) == Cover(init + [last])
    ensures SumOf(lens, Concat<nat>(init + [last])) == SumOf(lens, Concat<nat>(init)) + SumOf(lens, last)
  {
    ConcatSnoc<nat>(init, last);
    hide SumOf, Cover, Concat;
    CoverOpen(init, last);
    SumOfConcat(lens, Concat<nat>(init), last);
  }

  lemma NoGroups(lens: seq<nat>)
    ensures multiset(Concat<nat>([])) == Cover([]) && SumOf(lens, Concat<nat>([])) == Loads(lens, [], 0, 0)
  {
  }

  lemma {:induction false} ConcatFacts(lens: seq<nat>, groups: seq<seq<nat>>)
    ensures multiset(Concat<nat>(groups)) == Cover(groups)
    ensures SumOf(lens, Concat<nat>(groups)) == Loads(lens, groups, 0, |groups|)
  {
    hide *;
    if groups == [] {
      NoGroups(lens);
    } else {
      var n := |groups| - 1;
      var init := groups[..n];
      ConcatFacts(lens, init);
      LoadsNext(lens, groups, 0, n);
      LoadsPrefix(lens, groups, n);
      OneMoreGroup(lens, init, groups[n]);
      assert groups == init + [groups[n]];
    }
  }

  lemma LoadsPrefix(lens: seq<nat>, groups: seq<seq<nat>>, n: nat)
    requires n <= |groups|
    ensures Loads(lens, groups, 0, n) == Loads(lens, groups[..n], 0, n)
  {
    LoadsAgree(lens, groups, groups[..n], n);
  }

  lemma {:induction false} LoadsAgree(lens: seq<nat>, a: seq<seq<nat>>, b: seq<seq<nat>>, n: nat)
    requires n <= |a| && n <= |b| && forall g :: 0 <= g < n ==> a[g] == b[g]
    ensures Loads(lens, a, 0, n) == Loads(lens, b, 0, n)
  {
    if n > 0 {
      LoadsAgree(lens, a, b, n - 1);
    }
  }

  lemma {:induction false} SumOfConcat(lens: seq<nat>, a: seq<nat>, b: seq<nat>)
    ensures SumOf(lens, a + b) == SumOf(lens, a) + SumOf(lens, b)
  {
    if a == [] {
      assert a + b == b;
    } else {
      assert (a + b)[1..] == a[1..] + b;
      SumOfConcat(lens, a[1..], b);
    }
  }

  /** The length of a group does not depend on the order of its indices. */
  lemma {:induction false} SumOfPermutation(lens: seq<nat>, a: seq<nat>, b: seq<nat>)
    requires multiset(a) == multiset(b)
    ensures SumOf(lens, a) == SumOf(lens, b)
  {
    if a == [] {
      NothingLeft(b);
    } else {
      hide SumOf;
      var j := IndexIn(b, a[0], multiset(a));
      RemoveAt(lens, b, j);
      RemoveFirst(lens, a);
      CancelOne(multiset(a[1..]), multiset(b[..j] + b[j + 1..]), a[0]);
      SumOfPermutation(lens, a[1..], b[..j] + b[j + 1..]);
    }
  }

  lemma NothingLeft(b: seq<nat>)
    requires multiset(b) == multiset{}
    ensures b == []
  {
    assert |multiset(b)| == 0;
  }

  lemma RemoveFirst(lens: seq<nat>, a: seq<nat>)
    requires a != []
    ensures multiset(a) == multiset(a[1..]) + multiset{a[0]}
    ensures SumOf(lens, a) == SumOf(lens, a[1..]) + SumOf(lens, [a[0]])
  {
    assert [a[0]][1..] == [];
    assert SumOf(lens, [a[0]]) == if a[0] < |lens| then lens[a[0]] else 0;
    hide SumOf;
    assert a == [a[0]] + a[1..];
  }

  lemma IndexIn(b: seq<nat>, x: nat, m: multiset<nat>) returns (j: nat)
    requires x in m && m == multiset(b)
    ensures j < |b| && b[j] == x
  {
    j :| 0 <= j < |b| && b[j] == x;
  }

  lemma CancelOne(m: multiset<nat>, n: multiset<nat>, x: nat)
    requires m + multiset{x} == n + multiset{x}
    ensures m == n
  {
    assert m == m + multiset{x} - multiset{x};
    assert n == n + multiset{x} - multiset{x};
  }

  lemma RemoveAt(lens: seq<nat>, b: seq<nat>, j: nat)
    requires j < |b|
    ensures multiset(b) == multiset(b[..j] + b[j + 1..]) + multiset{b[j]}
    ensures SumOf(lens, b) == SumOf(lens, b[..j] + b[j + 1..]) + SumOf(lens, [b[j]])
  {
    assert b == b[..j] + [b[j]] + b[j + 1..];
    assert b == b[..j] + ([b[j]] + b[j + 1..]);
    SumOfConcat(lens, b[..j], [b[j]] + b[j + 1..]);
    SumOfConcat(lens, [b[j]], b[j + 1..]);
    SumOfConcat(lens, b[..j], b[j + 1..]);
  }

  /** All partitions of the same sequences have the same total length. */
  lemma SameTotal(lens: seq<nat>, groups: seq<seq<nat>>, others: seq<seq<nat>>)
    requires IsPartition(groups, |lens|) && IsPartition(others, |lens|)
    ensures Loads(lens, groups, 0, |groups|) == Loads(lens, others, 0, |others|)
  {
    ConcatFacts(lens, groups);
    ConcatFacts(lens, others);
    SumOfPermutation(lens, Concat<nat>(groups), Concat<nat>(others));
  }

  lemma {:induction false} LoadsAtMost(lens: seq<nat>, groups: seq<seq<nat>>, a: nat, b: nat, cap: nat)
    requires a <= b <= |groups| && forall g :: a <= g < b ==> SumOf(lens, groups[g]) <= cap
    ensures Loads(lens, groups, a, b) <= Product(b - a, cap)
    decreases b - a
  {
    ProductNext(b - a, cap);
    hide Product;
    if a < b {
      LoadsAtMost(lens, groups, a, b - 1, cap);
    }
  }

  lemma FewerTimes(a: nat, b: nat, c: nat)
    requires Product(a, c) < Product(b, c)
    ensures a < b
  {
    if a >= b {
      ProductMonotone(b, a, c);
    }
  }

  /** One more in each of `n` summands. */
  lemma {:induction false} ProductSucc(n: nat, c: nat)
    ensures Product(n, c + 1) == Product(n, c) + n
  {
    ProductNext(n, c);
    ProductNext(n, c + 1);
    hide Product;
    if n > 0 {
      ProductSucc(n - 1, c);
    }
  }

  lemma FirstInGroup(lens: seq<nat>, groups: seq<seq<nat>>, g: nat)
    requires InRange(lens, groups) && g < |groups|
    ensures First(lens, groups, g) <= SumOf(lens, groups[g])
    ensures |groups[g]| >= 2 ==> First(lens, groups, g) + lens[groups[g][1]] <= SumOf(lens, groups[g])
    ensures |groups[g]| == 1 ==> First(lens, groups, g) == SumOf(lens, groups[g])
  {
    if |groups[g]| >= 2 {
      assert groups[g][1..][0] == groups[g][1];
    } else if |groups[g]| == 1 {
      assert groups[g][1..] == [];
    }
  }

  /** Any two groups together exceed the capacity. */
  lemma AnyTwoExceed(lens: seq<nat>, cap: nat, groups: seq<seq<nat>>, g: nat, h: nat)
    requires IsPacking(lens, cap, groups) && BestFitShape(lens, cap, groups) && g < |groups| && h < |groups| && g != h
    ensures SumOf(lens, groups[g]) + SumOf(lens, groups[h]) > cap
  {
    FirstInGroup(lens, groups, g);
    FirstInGroup(lens, groups, h);
  }

  // ---------------------------------------------------------------- many long sequences

  /** The group of `packing` that holds index `i`. */
  ghost function HomeOf(packing: seq<seq<nat>>, i: nat): (g: nat)
    requires InSomeGroup(packing, i)
    ensures g < |packing| && i in packing[g]
  {
    var g :| 0 <= g < |packing| && i in packing[g];
    g
  }

  lemma {:induction false} TwoInGroup(lens: seq<nat>, group: seq<nat>, a: nat, b: nat)
    requires a < b < |group| && group[a] < |lens| && group[b] < |lens|
    ensures lens[group[a]] + lens[group[b]] <= SumOf(lens, group)
  {
    if a > 0 {
      TwoInGroup(lens, group[1..], a - 1, b - 1);
    } else {
      OneInGroup(lens, group[1..], b - 1);
    }
  }

  lemma {:induction false} OneInGroup(lens: seq<nat>, group: seq<nat>, a: nat)
    requires a < |group| && group[a] < |lens|
    ensures lens[group[a]] <= SumOf(lens, group)
  {
    if a > 0 {
      OneInGroup(lens, group[1..], a - 1);
    }
  }

  lemma {:induction false} Pigeonhole(homes: seq<nat>, n: nat)
    requires forall i :: 0 <= i < |homes| ==> homes[i] < n
    requires forall i, j :: 0 <= i < j < |homes| ==> homes[i] != homes[j]
    ensures |homes| <= n
  {
    if homes != [] {
      assert n > 0 by { assert homes[0] < n; }
      if i :| 0 <= i < |homes| && homes[i] == n - 1 {
        var rest := homes[..i] + homes[i + 1..];
        assert forall k :: 0 <= k < |rest| ==> rest[k] == homes[if k < i then k else k + 1];
        Pigeonhole(rest, n - 1);
      } else {
        Pigeonhole(homes, n - 1);
      }
    }
  }

  /** Sequences longer than half of the capacity need a group each. */
  lemma LongNeedGroups(lens: seq<nat>, cap: nat, packing: seq<seq<nat>>, long: seq<nat>)
    requires IsPacking(lens, cap, packing)
    requires forall i :: 0 <= i < |long| ==> long[i] < |lens| && 2 * lens[long[i]] > cap
    requires forall i, j :: 0 <= i < j < |long| ==> long[i] != long[j]
    ensures |long| <= |packing|
  {
    PartitionMeans(packing, |lens|);
    var homes := seq(|long|, i requires 0 <= i < |long| => HomeOf(packing, long[i]));
    forall i, j | 0 <= i < j < |long|
      ensures homes[i] != homes[j]
    {
      var group := packing[homes[i]];
      if homes[i] == homes[j] {
        var a :| 0 <= a < |group| && group[a] == long[i];
        var b :| 0 <= b < |group| && group[b] == long[j];
        TwoInGroup(lens, group, if a < b then a else b, if a < b then b else a);
      }
    }
    Pigeonhole(homes, |packing|);
  }

  /** The first items of the groups are different indices. */
  lemma FirstsLong(lens: seq<nat>, cap: nat, groups: seq<seq<nat>>, packing: seq<seq<nat>>, j: nat)
    requires IsPacking(lens, cap, groups) && BestFitShape(lens, cap, groups) && IsPacking(lens, cap, packing)
    requires 0 < j <= |groups| && 2 * First(lens, groups, j - 1) > cap
    ensures j <= |packing|
  {
    var long := seq(j, g requires 0 <= g < j => groups[g][0]);
    PartitionMeans(groups, |lens|);
    forall g | 0 <= g < j
      ensures long[g] < |lens| && 2 * lens[long[g]] > cap
    {
      assert First(lens, groups, g) >= First(lens, groups, j - 1);
    }
    LongNeedGroups(lens, cap, packing, long);
  }

  // ---------------------------------------------------------------- no long sequence in the late groups

  /** A late group before the last holds two items that do not fit into the earlier ones. */
  lemma LateGroup(lens: seq<nat>, cap: nat, groups: seq<seq<nat>>, g: nat, h: nat)
    requires IsPacking(lens, cap, groups) && BestFitShape(lens, cap, groups)
    requires g + 1 < h < |groups| - 1 && 2 * First(lens, groups, h) <= cap
    ensures SumOf(lens, groups[g]) + SumOf(lens, groups[g + 1]) + SumOf(lens, groups[h]) >= 2 * cap + 2
  {
    FirstInGroup(lens, groups, h);
    assert SumOf(lens, groups[h]) + First(lens, groups, h + 1) > cap;
    assert First(lens, groups, h) >= First(lens, groups, h + 1);
    assert |groups[h]| >= 2;
    assert SumOf(lens, groups[g]) + First(lens, groups, h) > cap;
    assert SumOf(lens, groups[g + 1]) + lens[groups[h][1]] > cap;
  }

  lemma LoadsNext(lens: seq<nat>, groups: seq<seq<nat>>, a: nat, b: nat)
    requires a <= b < |groups|
    ensures Loads(lens, groups, a, b + 1) == Loads(lens, groups, a, b) + SumOf(lens, groups[b])
  {
  }

  lemma LoadsNone(lens: seq<nat>, groups: seq<seq<nat>>, a: nat)
    requires a <= |groups|
    ensures Loads(lens, groups, a, a) == 0
  {
  }

  lemma FirstDescends(lens: seq<nat>, cap: nat, groups: seq<seq<nat>>, g: nat, h: nat)
    requires InRange(lens, groups) && BestFitShape(lens, cap, groups) && g <= h < |groups|
    ensures First(lens, groups, g) >= First(lens, groups, h)
    ensures g < h ==> SumOf(lens, groups[g]) + First(lens, groups, h) > cap
  {
  }

  /** The load of groups `0..2t-1` and of the `t` late groups from `e` on. */
  function PairLoads(lens: seq<nat>, groups: seq<seq<nat>>, e: nat, t: nat): nat
    requires 2 * t <= e && e + t <= |groups|
  {
    Loads(lens, groups, 0, 2 * t) + Loads(lens, groups, e, e + t)
  }

  lemma PairLoadsNext(lens: seq<nat>, groups: seq<seq<nat>>, e: nat, t: nat)
    requires 2 * t + 2 <= e && e + t + 1 <= |groups|
    ensures PairLoads(lens, groups, e, t + 1)
      == PairLoads(lens, groups, e, t)
        + SumOf(lens, groups[2 * t]) + SumOf(lens, groups[2 * t + 1]) + SumOf(lens, groups[e + t])
  {
    LoadsNext(lens, groups, 0, 2 * t);
    LoadsNext(lens, groups, 0, 2 * t + 1);
    LoadsNext(lens, groups, e, e + t);
    hide Loads, SumOf;
  }

  lemma ShapeInRange(lens: seq<nat>, cap: nat, groups: seq<seq<nat>>)
    requires IsPacking(lens, cap, groups)
    ensures InRange(lens, groups)
  {
  }

  /** Pairing groups `0..2t-1` with the late groups from `e` on. */
  lemma {:induction false} PairedLoads(lens: seq<nat>, cap: nat, groups: seq<seq<nat>>, e: nat, t: nat)
    requires IsPacking(lens, cap, groups) && BestFitShape(lens, cap, groups)
    requires 2 * t <= e && (t > 0 ==> e + t < |groups|) && e < |groups| && 2 * First(lens, groups, e) <= cap
    ensures PairLoads(lens, groups, e, t) >= Product(2 * t, cap + 1)
  {
    if t == 0 {
      hide IsPacking, BestFitShape, First, SumOf;
    } else {
      hide *;
      ShapeInRange(lens, cap, groups);
      ProductNext(2 * t, cap + 1);
      ProductNext(2 * t - 1, cap + 1);
      PairedLoads(lens, cap, groups, e, t - 1);
      FirstDescends(lens, cap, groups, e, e + t - 1);
      LateGroup(lens, cap, groups, 2 * t - 2, e + t - 1);
      PairLoadsNext(lens, groups, e, t - 1);
    }
  }

  lemma PairsAndRest(lens: seq<nat>, groups: seq<seq<nat>>, e: nat, t: nat)
    requires 2 * t <= e && e + t < |groups|
    ensures Loads(lens, groups, 0, |groups|) >= PairLoads(lens, groups, e, t)
    ensures 2 * t + 1 == e ==>
      Loads(lens, groups, 0, |groups|)
        >= PairLoads(lens, groups, e, t) + SumOf(lens, groups[2 * t]) + SumOf(lens, groups[e + t])
  {
    LoadsSplit(lens, groups, 0, e, |groups|);
    LoadsSplit(lens, groups, 0, 2 * t, e);
    LoadsSplit(lens, groups, e, e + t, |groups|);
    LoadsSplit(lens, groups, e + t, e + t + 1, |groups|);
    LoadsNext(lens, groups, e + t, e + t);
    LoadsNone(lens, groups, e + t);
    LoadsNext(lens, groups, 0, 2 * t);
    hide Loads, SumOf;
  }

  /** If group `e` starts with no long sequence, the total exceeds `e` times the capacity. */
  lemma ShortTotal(lens: seq<nat>, cap: nat, groups: seq<seq<nat>>, e: nat)
    requires IsPacking(lens, cap, groups) && BestFitShape(lens, cap, groups)
    requires 0 < e < |groups| && e <= 2 * (|groups| - e) - 1 && 2 * First(lens, groups, e) <= cap
    ensures Loads(lens, groups, 0, |groups|) > Product(e, cap)
  {
    hide *;
    PairsTotal(lens, cap, groups, e, e / 2);
  }

  lemma PairsTotal(lens: seq<nat>, cap: nat, groups: seq<seq<nat>>, e: nat, t: nat)
    requires IsPacking(lens, cap, groups) && BestFitShape(lens, cap, groups)
    requires 0 < e && e + t < |groups| && (e == 2 * t || e == 2 * t + 1) && 2 * First(lens, groups, e) <= cap
    ensures Loads(lens, groups, 0, |groups|) > Product(e, cap)
  {
    hide *;
    PairedLoads(lens, cap, groups, e, t);
    PairsAndRest(lens, groups, e, t);
    ProductSucc(2 * t, cap);
    if e != 2 * t {
      ShapeInRange(lens, cap, groups);
      FirstInGroup(lens, groups, e + t);
      FirstDescends(lens, cap, groups, 2 * t, e + t);
      ProductNext(e, cap);
    }
  }

  /** Best-fit decreasing uses at most half again as many groups as any packing. */
  lemma ThreeHalves(lens: seq<nat>, cap: nat, groups: seq<seq<nat>>, packing: seq<seq<nat>>)
    requires IsPacking(lens, cap, groups) && BestFitShape(lens, cap, groups)
    requires IsPacking(lens, cap, packing)
    ensures 2 * |groups| <= 3 * |packing|
  {
    if |groups| > 0 {
      var j := (2 * |groups| + 2) / 3;
      assert j > 0 && j <= |groups| && 3 * j >= 2 * |groups|;
      if 2 * First(lens, groups, j - 1) > cap {
        FirstsLong(lens, cap, groups, packing, j);
      } else if j == 1 {
        NonEmptyPacking(lens, groups, packing);
      } else {
        ShortTotal(lens, cap, groups, j - 1);
        SameTotal(lens, groups, packing);
        LoadsAtMost(lens, packing, 0, |packing|, cap);
        FewerTimes(j - 1, |packing|, cap);
      }
    }
  }

  lemma NonEmptyPacking(lens: seq<nat>, groups: seq<seq<nat>>, packing: seq<seq<nat>>)
    requires IsPartition(groups, |lens|) && IsPartition(packing, |lens|)
    requires |groups| > 0 && groups[0] != []
    ensures |packing| > 0
  {
    CoverMember(groups, 0, 0);
    CoverHas(packing, groups[0][0]);
  }
}
