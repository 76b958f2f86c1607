/** The files of a Megatron checkpoint and which shard of a parameter goes into which file. */
module CheckpointKeys {
  import opened Wrappers
  import opened Arithmetic

  type Degree = n: nat | n > 0 witness 1

  /** Tensor, expert-tensor, expert and pipeline parallel sizes of the target. */
  datatype Parallel = Parallel(tp: Degree, tpe: Degree, ep: Degree, pp: Degree)

  /** `mp_rank_<tp>[_<pp>][_<ep>]`. */
  datatype Key = Key(tp: nat, pp: Option<nat>, ep: Option<nat>)

  datatype Target = Target(key: Key, tpRank: nat, tpeRank: nat)

  function ModelRanks(p: Parallel): nat {
    if Product(p.ep, p.tpe) > p.tp then Product(p.ep, p.tpe) else p.tp
  }

  function EpRank(p: Parallel, m: nat): nat {
    (m / p.tpe) % p.ep
  }

  function TargetAt(p: Parallel, ppRank: nat, m: nat): Target {
    Target(Key(m % p.tp, if p.pp == 1 then None else Some(ppRank), if p.ep > 1 then Some(EpRank(p, m)) else None),
      m % p.tp, m % p.tpe)
  }

  predicate Selected(p: Parallel, ep: Option<nat>, m: nat) {
    ep == None || ep == Some(EpRank(p, m))
  }

  /** The generator from model rank `m` on; its assertion fails at the first rank it would yield. */
  function GenFrom(p: Parallel, ppRank: nat, ep: Option<nat>, m: nat): Outcome<seq<Target>>
    decreases ModelRanks(p) - m
  {
    if m >= ModelRanks(p) then Returned([])
    else if !Selected(p, ep, m) then GenFrom(p, ppRank, ep, m + 1)
    else if p.tpe > p.tp then Raised
    else
      var rest :- GenFrom(p, ppRank, ep, m + 1);
      Returned([TargetAt(p, ppRank, m)] + rest)
  }

  function GenCheckpointName(p: Parallel, ppRank: nat, ep: Option<nat>): Outcome<seq<Target>> {
    GenFrom(p, ppRank, ep, 0)
  }

  // ---------------------------------------------------------------- keys

  /** Below `Product(a, b)`, the quotient by `b` is below `a`. */
  lemma QuotientBelow(n: nat, a: nat, b: nat)
    requires b > 0 && n < Product(a, b)
    ensures n / b < a
  {
    var q := n / b;
    assert n == Product(q, b) + n % b;
    if a <= q {
      ProductMonotone(a, q, b);
    }
  }

  lemma SameQuotientClose(i: nat, j: nat, b: nat)
    requires b > 0 && i / b == j / b
    ensures i < j + b && j < i + b
  {
    Remainder(i, b);
    Remainder(j, b);
    hide Product;
  }

  /** Two numbers with the same quotient by `b` and the same remainder by `c`, where `b <= c`, are equal. */
  lemma QuotientAndRemainder(i: nat, j: nat, b: nat, c: nat)
    requires 0 < b <= c && i / b == j / b && i % c == j % c
    ensures i == j
  {
    SameQuotientClose(i, j, b);
    Remainder(i, c);
    Remainder(j, c);
    CloseAndCongruent(i, j, c, i / c, j / c, i % c);
  }

  lemma SmallRemainder(m: nat, n: nat)
    requires m < n
    ensures m % n == m
  {
  }

  lemma SameKeyParts(p: Parallel, r: nat, i: nat, s: nat, j: nat)
    requires r < p.pp && s < p.pp && TargetAt(p, r, i).key == TargetAt(p, s, j).key
    ensures r == s && i % p.tp == j % p.tp && (p.ep > 1 ==> EpRank(p, i) == EpRank(p, j))
  {
    hide EpRank;
  }

  lemma EpRankIsQuotient(p: Parallel, m: nat)
    requires m < Product(p.ep, p.tpe)
    ensures EpRank(p, m) == m / p.tpe
  {
    QuotientBelow(m, p.ep, p.tpe);
    SmallRemainder(m / p.tpe, p.ep);
  }

  /** With `tpe <= tp`, no two model ranks of any pipeline ranks share a key. */
  lemma KeysDistinct(p: Parallel, r: nat, i: nat, s: nat, j: nat)
    requires p.tpe <= p.tp && i < ModelRanks(p) && j < ModelRanks(p) && r < p.pp && s < p.pp
    requires TargetAt(p, r, i).key == TargetAt(p, s, j).key
    ensures r == s && i == j
  {
    SameKeyParts(p, r, i, s, j);
    hide TargetAt, EpRank, Product;
    OneExpertGroup(p);
    if Product(p.ep, p.tpe) <= p.tp {
      SmallRemainder(i, p.tp);
      SmallRemainder(j, p.tp);
    } else {
      EpRankIsQuotient(p, i);
      EpRankIsQuotient(p, j);
      QuotientAndRemainder(i, j, p.tpe, p.tp);
    }
  }

  lemma OneExpertGroup(p: Parallel)
    ensures p.ep == 1 && p.tpe <= p.tp ==> Product(p.ep, p.tpe) <= p.tp
  {
    ProductNext(1, p.tpe);
    ProductNext(0, p.tpe);
  }

  /** The model rank at which expert group `e` meets expert-tensor rank `t`. */
  function RankFor(p: Parallel, e: nat, t: nat): nat {
    Product(e, p.tpe) + t
  }

  /** Every (expert group, expert-tensor rank) pair is some model rank. */
  lemma ShardHasRank(p: Parallel, e: nat, t: nat)
    requires e < p.ep && t < p.tpe
    ensures RankFor(p, e, t) < ModelRanks(p) && EpRank(p, RankFor(p, e, t)) == e && RankFor(p, e, t) % p.tpe == t
  {
    var m := RankFor(p, e, t);
    ProductMonotone(e + 1, p.ep, p.tpe);
    ProductNext(e + 1, p.tpe);
    QuotientUnique(m, p.tpe, e, t);
    assert m == Product(m / p.tpe, p.tpe) + m % p.tpe;
    SameProduct(m / p.tpe, e, p.tpe);
    SmallRemainder(e, p.ep);
  }

  lemma SameProduct(a: nat, b: nat, c: nat)
    requires c > 0 && Product(a, c) == Product(b, c)
    ensures a == b
  {
    hide Product;
    if a < b {
      ProductMonotone(a + 1, b, c);
      ProductNext(a + 1, c);
    } else if b < a {
      ProductMonotone(b + 1, a, c);
      ProductNext(b + 1, c);
    }
  }

  // ---------------------------------------------------------------- what the generator yields

  /** The generator raises exactly when `tpe > tp` and there is something to yield. */
  lemma GenRaises(p: Parallel, ppRank: nat, ep: Option<nat>)
    ensures GenCheckpointName(p, ppRank, ep).Raised? <==> p.tpe > p.tp && (ep.None? || ep.value < p.ep)
  {
    GenFromRaises(p, ppRank, ep, 0);
    if ep.None? {
      assert Selected(p, ep, 0);
    } else if ep.value < p.ep {
      ShardHasRank(p, ep.value, 0);
      assert Selected(p, ep, RankFor(p, ep.value, 0));
    } else {
      forall k | 0 <= k < ModelRanks(p)
        ensures !Selected(p, ep, k)
      {
        EpRankBelow(p, k);
      }
    }
  }

  lemma EpRankBelow(p: Parallel, m: nat)
    ensures EpRank(p, m) < p.ep
  {
  }

  lemma {:induction false} GenFromRaises(p: Parallel, ppRank: nat, ep: Option<nat>, m: nat)
    ensures GenFrom(p, ppRank, ep, m).Raised? <==>
      p.tpe > p.tp && exists k :: m <= k < ModelRanks(p) && Selected(p, ep, k)
    decreases ModelRanks(p) - m
  {
    hide EpRank;
    if m < ModelRanks(p) {
      GenFromRaises(p, ppRank, ep, m + 1);
    }
  }

  ghost predicate YieldedFrom(p: Parallel, ppRank: nat, ep: Option<nat>, m: nat, t: Target) {
    exists k :: m <= k < ModelRanks(p) && Selected(p, ep, k) && t == TargetAt(p, ppRank, k)
  }

  ghost predicate DistinctKeys(ts: seq<Target>) {
    forall i, j :: 0 <= i < j < |ts| ==> ts[i].key != ts[j].key
  }

  lemma YieldedNext(p: Parallel, ppRank: nat, ep: Option<nat>, m: nat, t: Target)
    requires m < ModelRanks(p)
    ensures YieldedFrom(p, ppRank, ep, m, t) <==>
      YieldedFrom(p, ppRank, ep, m + 1, t) || (Selected(p, ep, m) && t == TargetAt(p, ppRank, m))
  {
    hide TargetAt, EpRank, Selected;
    if YieldedFrom(p, ppRank, ep, m, t) {
      var k :| m <= k < ModelRanks(p) && Selected(p, ep, k) && t == TargetAt(p, ppRank, k);
    }
  }

  lemma {:induction false} GenFromYields(p: Parallel, ppRank: nat, ep: Option<nat>, m: nat)
    requires p.tpe <= p.tp && ppRank < p.pp
    ensures GenFrom(p, ppRank, ep, m).Returned?
    ensures forall t :: t in GenFrom(p, ppRank, ep, m).value <==> YieldedFrom(p, ppRank, ep, m, t)
    ensures DistinctKeys(GenFrom(p, ppRank, ep, m).value)
    decreases ModelRanks(p) - m
  {
    hide TargetAt, EpRank;
    if m < ModelRanks(p) {
      GenFromYields(p, ppRank, ep, m + 1);
      var rest := GenFrom(p, ppRank, ep, m + 1).value;
      if Selected(p, ep, m) {
        forall i | 0 <= i < |rest|
          ensures rest[i].key != TargetAt(p, ppRank, m).key
        {
          assert rest[i] in rest;
          var k :| m + 1 <= k < ModelRanks(p) && Selected(p, ep, k) && rest[i] == TargetAt(p, ppRank, k);
          if rest[i].key == TargetAt(p, ppRank, m).key {
            KeysDistinct(p, ppRank, m, ppRank, k);
          }
        }
      }
      forall t
        ensures YieldedFrom(p, ppRank, ep, m, t) <==>
          YieldedFrom(p, ppRank, ep, m + 1, t) || (Selected(p, ep, m) && t == TargetAt(p, ppRank, m))
      {
        YieldedNext(p, ppRank, ep, m, t);
      }
    }
  }

  /** With `tpe <= tp` the generator yields each selected model rank, under pairwise distinct keys. */
  lemma GenYields(p: Parallel, ppRank: nat, ep: Option<nat>)
    requires p.tpe <= p.tp && ppRank < p.pp
    ensures GenCheckpointName(p, ppRank, ep).Returned?
    ensures var ts := GenCheckpointName(p, ppRank, ep).value;
      DistinctKeys(ts) && forall t :: t in ts <==> YieldedFrom(p, ppRank, ep, 0, t)
  {
    GenFromYields(p, ppRank, ep, 0);
  }

  /** Every shard of every expert group, and every tensor shard, reaches a key. */
  lemma EveryShardReached(p: Parallel, ppRank: nat)
    requires p.tpe <= p.tp && ppRank < p.pp
    ensures forall e: nat, t: nat :: e < p.ep && t < p.tpe ==> ReachesExpertShard(p, ppRank, e, t)
    ensures forall t: nat :: t < p.tp ==> ReachesTensorShard(p, ppRank, t)
  {
    forall e: nat, t: nat | e < p.ep && t < p.tpe
      ensures ReachesExpertShard(p, ppRank, e, t)
    {
      GenYields(p, ppRank, Some(e));
      ShardHasRank(p, e, t);
      assert YieldedFrom(p, ppRank, Some(e), 0, TargetAt(p, ppRank, RankFor(p, e, t)));
    }
    forall t: nat | t < p.tp
      ensures ReachesTensorShard(p, ppRank, t)
    {
      GenYields(p, ppRank, None);
      SmallRemainder(t, p.tp);
      assert Selected(p, None, t);
      assert YieldedFrom(p, ppRank, None, 0, TargetAt(p, ppRank, t));
    }
  }

  ghost predicate ReachesExpertShard(p: Parallel, ppRank: nat, e: nat, t: nat) {
    var r := GenCheckpointName(p, ppRank, Some(e));
    r.Returned? && exists target :: target in r.value && target.tpeRank == t
  }

  ghost predicate ReachesTensorShard(p: Parallel, ppRank: nat, t: nat) {
    var r := GenCheckpointName(p, ppRank, None);
    r.Returned? && exists target :: target in r.value && target.tpRank == t
  }
}
