/** Largest differencing on the values of states: which states are merged, and why the heap leaves no choice. */
module Differencing {
  import opened Partitions

  /** States of `k` sets each. */
  ghost predicate Sized(v: seq<seq<Part>>, k: nat) {
    k > 0 && forall i :: 0 <= i < |v| ==> |v[i]| == k
  }

  /** No state is below the one at `i`: what `heappop` may return. */
  ghost predicate IsLeast(v: seq<seq<Part>>, k: nat, i: nat)
    requires Sized(v, k)
  {
    i < |v| && forall m :: 0 <= m < |v| ==> !StateLess(v[m], v[i])
  }

  /** The states at `i` and then at `j` are replaced by their merge. */
  function Next(v: seq<seq<Part>>, k: nat, i: nat, j: nat): (w: seq<seq<Part>>)
    requires Sized(v, k) && i < |v| && j < |v| - 1
    ensures Sized(w, k) && |w| == |v| - 1
  {
    var rest := Removed(v, i);
    Removed(rest, j) + [MergeStates(v[i], rest[j])]
  }

  /** One turn of the loop: two successively least states are merged. */
  ghost predicate IsStep(v: seq<seq<Part>>, k: nat, i: nat, j: nat)
    requires Sized(v, k)
  {
    IsLeast(v, k, i) && IsLeast(Removed(v, i), k, j)
  }

  /** `s` is the last state of some run of the loop, whatever least states were popped. */
  ghost predicate EndsIn(v: seq<seq<Part>>, k: nat, s: seq<Part>)
    requires Sized(v, k)
    decreases |v|
  {
    if |v| <= 1 then v == [s]
    else exists i: nat, j: nat :: IsStep(v, k, i, j) && EndsIn(Next(v, k, i, j), k, s)
  }

  /** The position of the first least state. */
  function LeastAt(v: seq<seq<Part>>, k: nat): (best: nat)
    requires Sized(v, k) && |v| > 0
    ensures best < |v|
  {
    if |v| == 1 then 0
    else
      var n := |v| - 1;
      var best := LeastAt(v[..n], k);
      if StateLess(v[n], v[best]) then n else best
  }

  /** The last state when always the first least state is popped. */
  function Settled(v: seq<seq<Part>>, k: nat): (s: seq<Part>)
    requires Sized(v, k) && |v| > 0
    ensures |s| == k
    decreases |v|
  {
    if |v| == 1 then v[0]
    else
      var i := LeastAt(v, k);
      Settled(Next(v, k, i, LeastAt(Removed(v, i), k)), k)
  }

  lemma {:induction false} LeastAtIsLeast(v: seq<seq<Part>>, k: nat)
    requires Sized(v, k) && |v| > 0
    ensures IsLeast(v, k, LeastAt(v, k))
  {
    var n := |v| - 1;
    if n > 0 {
      LeastAtIsLeast(v[..n], k);
      var best := LeastAt(v[..n], k);
      hide StateLess;
      forall m | 0 <= m < |v|
        ensures !StateLess(v[m], v[LeastAt(v, k)])
      {
        StateLessOrder(v[n], v[m], v[best]);
        assert m < n ==> v[..n][m] == v[m];
      }
    } else {
      StateLessOrder(v[0], v[0], v[0]);
    }
  }

  // ---------------------------------------------------------------- no two states compare equal

  lemma {:induction false} ItemsTotal(a: seq<Item>, b: seq<Item>)
    requires |a| == |b| && a != b
    ensures ItemsLess(a, b) || ItemsLess(b, a)
  {
    if a[0] == b[0] {
      assert a == [a[0]] + a[1..] && b == [b[0]] + b[1..];
      ItemsTotal(a[1..], b[1..]);
    }
  }

  /** States with different first sets are ordered one way or the other. */
  lemma StatesTotal(s: seq<Part>, t: seq<Part>)
    requires |s| > 0 && |t| > 0 && s[0] != t[0]
    ensures StateLess(s, t) || StateLess(t, s)
  {
    if s[0].sum == t[0].sum && |s[0].items| == |t[0].items| {
      ItemsTotal(s[0].items, t[0].items);
    }
  }

  ghost predicate InUse(s: seq<Part>, k: nat) {
    StateOk(s, k) && |Bag(s)| > 0
  }

  ghost predicate Once(m: multiset<Item>) {
    forall x :: m[x] <= 1
  }

  /** Sound states that are not empty and share no item. */
  ghost predicate Separate(v: seq<seq<Part>>, k: nat) {
    k > 0 && (forall i :: 0 <= i < |v| ==> InUse(v[i], k)) && Once(PoolBag(v))
  }

  lemma SeparateSized(v: seq<seq<Part>>, k: nat)
    requires Separate(v, k)
    ensures Sized(v, k)
  {
  }

  lemma FirstUsed(s: seq<Part>, k: nat)
    requires InUse(s, k)
    ensures s[0].items != []
  {
    UsedFirst(s);
    hide Bag;
  }

  lemma FirstInBag(s: seq<Part>, x: Item)
    requires s != [] && x in s[0].items
    ensures Bag(s)[x] > 0
  {
  }

  lemma FirstSetsDiffer(v: seq<seq<Part>>, k: nat, i: nat, j: nat)
    requires Separate(v, k) && i < j < |v|
    ensures |v[i]| == |v[j]| == k && v[i][0] != v[j][0]
  {
    var rest := Removed(v, j);
    PoolBagWithout(v, j);
    PoolBagWithout(rest, i);
    assert rest[i] == v[i];
    FirstUsed(v[i], k);
    var x := v[i][0].items[0];
    FirstInBag(v[i], x);
    if v[i][0] == v[j][0] {
      FirstInBag(v[j], x);
    }
    assert PoolBag(v)[x] <= 1;
  }

  /** The state `heappop` returns is determined: a least state is the first least state. */
  lemma LeastUnique(v: seq<seq<Part>>, k: nat, i: nat)
    requires Separate(v, k) && i < |v|
    ensures Sized(v, k)
    ensures IsLeast(v, k, i) ==> i == LeastAt(v, k)
  {
    SeparateSized(v, k);
    LeastAtIsLeast(v, k);
    var j := LeastAt(v, k);
    hide Separate, LeastAt, StateLess;
    if i < j {
      FirstSetsDiffer(v, k, i, j);
      StatesTotal(v[i], v[j]);
    } else if j < i {
      FirstSetsDiffer(v, k, j, i);
      StatesTotal(v[i], v[j]);
    }
  }

  // ---------------------------------------------------------------- every run ends alike

  lemma FewerItems(all: multiset<Item>, rest: multiset<Item>, one: multiset<Item>)
    requires all == rest + one && Once(all)
    ensures Once(rest)
  {
    forall x
      ensures rest[x] <= 1
    {
      assert all[x] <= 1;
    }
  }

  lemma SeparateRemoved(v: seq<seq<Part>>, k: nat, i: nat)
    requires Separate(v, k) && i < |v|
    ensures Separate(Removed(v, i), k) && PoolBag(v) == PoolBag(Removed(v, i)) + Bag(v[i])
    ensures Sized(v, k) && InUse(v[i], k) && Once(PoolBag(v))
  {
    SeparateSized(v, k);
    PoolBagWithout(v, i);
    hide PoolBag, InUse, Bag, Once, Removed;
    RemovedAt(v, i);
    FewerItems(PoolBag(v), PoolBag(Removed(v, i)), Bag(v[i]));
  }

  lemma MergedInUse(s: seq<Part>, t: seq<Part>, k: nat)
    requires InUse(s, k) && InUse(t, k)
    ensures |s| == |t| == k
    ensures InUse(MergeStates(s, t), k) && Bag(MergeStates(s, t)) == Bag(s) + Bag(t)
  {
    MergeOk(s, t, k);
    hide Bag, MergeStates;
  }

  lemma SeparatePushed(v: seq<seq<Part>>, s: seq<Part>, k: nat)
    requires Separate(v, k) && InUse(s, k) && Once(PoolBag(v) + Bag(s))
    ensures Separate(v + [s], k) && PoolBag(v + [s]) == PoolBag(v) + Bag(s)
  {
    PoolBagSnoc(v, s);
    hide PoolBag, Bag, InUse, Once;
  }

  lemma SeparateNext(v: seq<seq<Part>>, k: nat, i: nat, j: nat)
    requires Separate(v, k) && i < |v| && j < |v| - 1
    ensures Sized(v, k) && Separate(Next(v, k, i, j), k) && PoolBag(Next(v, k, i, j)) == PoolBag(v)
  {
    hide Separate, PoolBag, InUse, Once, Bag, MergeStates, Removed;
    var rest := Removed(v, i);
    SeparateRemoved(v, k, i);
    SeparateRemoved(rest, k, j);
    MergedInUse(v[i], rest[j], k);
    assert PoolBag(Removed(rest, j)) + Bag(MergeStates(v[i], rest[j])) == PoolBag(v);
    SeparatePushed(Removed(rest, j), MergeStates(v[i], rest[j]), k);
  }

  /** Any run of the loop ends in the settled state: the heap's choice among least states makes no difference. */
  lemma {:induction false} EveryRunSettles(v: seq<seq<Part>>, k: nat, s: seq<Part>)
    requires Separate(v, k) && |v| > 0
    ensures Sized(v, k)
    ensures EndsIn(v, k, s) <==> s == Settled(v, k)
    decreases |v|
  {
    SeparateSized(v, k);
    if |v| > 1 {
      LeastAtIsLeast(v, k);
      var i := LeastAt(v, k);
      SeparateRemoved(v, k, i);
      LeastAtIsLeast(Removed(v, i), k);
      var j := LeastAt(Removed(v, i), k);
      SeparateNext(v, k, i, j);
      EveryRunSettles(Next(v, k, i, j), k, s);
      hide IsLeast, LeastAt, Separate, Next;
      forall m: nat, n: nat | IsStep(v, k, m, n)
        ensures m == i && n == j
      {
        StepIsForced(v, k, m, n);
      }
      assert IsStep(v, k, i, j);
    }
  }

  lemma StepIsForced(v: seq<seq<Part>>, k: nat, i: nat, j: nat)
    requires Separate(v, k) && Sized(v, k) && |v| > 1 && IsStep(v, k, i, j)
    ensures i == LeastAt(v, k) && j == LeastAt(Removed(v, i), k)
  {
    LeastUnique(v, k, i);
    SeparateRemoved(v, k, i);
    LeastUnique(Removed(v, i), k, j);
  }

  /** One turn of the loop does not change where it ends. */
  lemma StepSettles(v: seq<seq<Part>>, k: nat, i: nat, j: nat)
    requires Separate(v, k) && Sized(v, k) && |v| > 1 && IsStep(v, k, i, j)
    ensures Settled(Next(v, k, i, j), k) == Settled(v, k)
  {
    StepIsForced(v, k, i, j);
    hide Next, LeastAt, IsStep;
  }
}
