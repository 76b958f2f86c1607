/** `build_flex_plan`: environment ids, slots, and the two indexes over them. */
module FlexPlans {
  import opened Wrappers
  import opened Arithmetic
  import opened FlexInputs

  // ---------------------------------------------------------------- environment ids

  /** How many managers come before manager `m` of rank `r`, counting by manager index first. */
  function Before(managers: Managers, m: nat, r: nat): nat
    requires r <= |managers|
    decreases m, r
  {
    if r > 0 then Before(managers, m, r - 1) + if m < |managers[r - 1]| then 1 else 0
    else if m > 0 then Before(managers, m - 1, |managers|)
    else 0
  }

  predicate IsManager(managers: Managers, m: nat, r: nat) {
    r < |managers| && m < |managers[r]|
  }

  predicate Precedes(m: nat, r: nat, n: nat, q: nat) {
    m < n || (m == n && r < q)
  }

  lemma {:induction false} BeforeIncreases(managers: Managers, m: nat, r: nat, n: nat, q: nat)
    requires IsManager(managers, m, r) && q <= |managers| && Precedes(m, r, n, q)
    ensures Before(managers, m, r) < Before(managers, n, q)
    decreases n, q
  {
    if q > 0 {
      if m < n || r < q - 1 {
        BeforeIncreases(managers, m, r, n, q - 1);
      }
    } else if m == n - 1 {
      BeforeIncreases(managers, m, r, n - 1, |managers|);
    } else {
      BeforeIncreases(managers, m, r, n - 1, |managers|);
    }
  }

  /** The ids are ordered by (manager index, environment rank); no two managers share one. */
  lemma IdsOrdered(managers: Managers, m: nat, r: nat, n: nat, q: nat)
    requires IsManager(managers, m, r) && IsManager(managers, n, q)
    ensures Before(managers, m, r) < Before(managers, n, q) <==> Precedes(m, r, n, q)
    ensures Before(managers, m, r) == Before(managers, n, q) <==> m == n && r == q
  {
    if Precedes(m, r, n, q) {
      BeforeIncreases(managers, m, r, n, q);
    } else if Precedes(n, q, m, r) {
      BeforeIncreases(managers, n, q, m, r);
    }
  }

  /** Every smaller number is the id of an earlier manager. */
  lemma {:induction false} IdTaken(managers: Managers, n: nat, q: nat, id: nat) returns (m: nat, r: nat)
    requires q <= |managers| && id < Before(managers, n, q)
    ensures IsManager(managers, m, r) && Before(managers, m, r) == id && Precedes(m, r, n, q)
    decreases n, q
  {
    if q > 0 {
      if id < Before(managers, n, q - 1) {
        m, r := IdTaken(managers, n, q - 1, id);
      } else {
        m, r := n, q - 1;
      }
    } else {
      m, r := IdTaken(managers, n - 1, |managers|, id);
    }
  }

  function MaxManagers(managers: Managers): (most: nat)
    requires managers != []
    ensures forall r :: 0 <= r < |managers| ==> |managers[r]| <= most
    ensures exists r :: 0 <= r < |managers| && |managers[r]| == most
  {
    var n := |managers| - 1;
    if n == 0 then |managers[0]|
    else
      var most := MaxManagers(managers[..n]);
      if |managers[n]| > most then |managers[n]| else
        assert exists r :: 0 <= r < n && |managers[..n][r]| == most;
        most
  }

  /** The number of managers. */
  function Total(managers: Managers): nat {
    if managers == [] then 0 else Total(managers[..|managers| - 1]) + |managers[|managers| - 1]|
  }

  /** The managers of the ranks below `r` with index below `m`. */
  function Capped(managers: Managers, m: nat, r: nat): nat
    requires r <= |managers|
  {
    if r == 0 then 0 else Capped(managers, m, r - 1) + if |managers[r - 1]| < m then |managers[r - 1]| else m
  }

  lemma {:induction false} BeforeInRow(managers: Managers, m: nat, r: nat)
    requires r <= |managers|
    ensures Before(managers, m, r) - Before(managers, m, 0) == Capped(managers, m + 1, r) - Capped(managers, m, r)
  {
    if r > 0 {
      BeforeInRow(managers, m, r - 1);
    }
  }

  lemma {:induction false} BeforeIsCapped(managers: Managers, m: nat)
    ensures Before(managers, m, 0) == Capped(managers, m, |managers|)
  {
    if m > 0 {
      BeforeIsCapped(managers, m - 1);
      BeforeInRow(managers, m - 1, |managers|);
    } else {
      NothingCapped(managers, |managers|);
    }
  }

  lemma {:induction false} NothingCapped(managers: Managers, r: nat)
    requires r <= |managers|
    ensures Capped(managers, 0, r) == 0
  {
    if r > 0 {
      NothingCapped(managers, r - 1);
    }
  }

  lemma {:induction false} CappedIsTotal(managers: Managers, m: nat, r: nat)
    requires r <= |managers| && forall k :: 0 <= k < |managers| ==> |managers[k]| <= m
    ensures Capped(managers, m, r) == Total(managers[..r])
  {
    if r > 0 {
      assert managers[..r][..r - 1] == managers[..r - 1];
      CappedIsTotal(managers, m, r - 1);
    }
  }

  /** All ids together are 0, 1, ... up to the number of managers. */
  lemma IdsBelowTotal(managers: Managers, m: nat)
    requires forall k :: 0 <= k < |managers| ==> |managers[k]| <= m
    ensures Before(managers, m, 0) == Total(managers)
  {
    BeforeIsCapped(managers, m);
    CappedIsTotal(managers, m, |managers|);
    assert managers[..|managers|] == managers;
  }

  type Ids = seq<seq<nat>>

  function IdRow(managers: Managers, r: nat, count: nat): seq<nat>
    requires r <= |managers|
  {
    seq(count, (m: nat) => Before(managers, m, r))
  }

  /** `global_env_id_by_env_rank`. */
  function EnvIds(managers: Managers): Ids {
    seq(|managers|, r requires 0 <= r < |managers| => IdRow(managers, r, |managers[r]|))
  }

  /** How many managers of rank `r` have an id when the loops are at manager index `m` and rank `rank`. */
  function Numbered(managers: Managers, m: nat, rank: nat, r: nat): nat
    requires r < |managers|
  {
    Min(if r < rank then m + 1 else m, |managers[r]|)
  }

  function IdsUpTo(managers: Managers, m: nat, rank: nat): (ids: Ids)
    ensures |ids| == |managers|
  {
    seq(|managers|, r requires 0 <= r < |managers| => IdRow(managers, r, Numbered(managers, m, rank, r)))
  }

  lemma IdsNext(managers: Managers, m: nat, rank: nat)
    requires rank < |managers|
    ensures var ids := IdsUpTo(managers, m, rank);
      IdsUpTo(managers, m, rank + 1)
        == if m < |managers[rank]| then ids[rank := ids[rank] + [Before(managers, m, rank)]] else ids
  {
    hide Before;
    var ids, next := IdsUpTo(managers, m, rank), IdsUpTo(managers, m, rank + 1);
    if m < |managers[rank]| {
      assert next[rank] == ids[rank] + [Before(managers, m, rank)];
    }
  }

  lemma IdsNextRow(managers: Managers, m: nat)
    ensures IdsUpTo(managers, m, |managers|) == IdsUpTo(managers, m + 1, 0)
    ensures Before(managers, m, |managers|) == Before(managers, m + 1, 0)
  {
  }

  lemma NoIds(managers: Managers)
    ensures IdsUpTo(managers, 0, 0) == seq(|managers|, _ => [])
  {
  }

  lemma AllIds(managers: Managers, most: nat)
    requires forall r :: 0 <= r < |managers| ==> |managers[r]| <= most
    ensures IdsUpTo(managers, most, 0) == EnvIds(managers)
  {
  }

  lemma CounterNext(managers: Managers, m: nat, rank: nat)
    requires rank < |managers|
    ensures Before(managers, m, rank + 1) == Before(managers, m, rank) + if m < |managers[rank]| then 1 else 0
  {
  }

  method AllocateEnvIds(managers: Managers) returns (ids: Ids)
    requires managers != []
    ensures ids == EnvIds(managers)
  {
    var most := MaxManagers(managers);
    hide IdsUpTo, EnvIds, MaxManagers;
    ids := seq(|managers|, _ => []);
    NoIds(managers);
    var nextEnvId: nat := 0;
    for m := 0 to most
      invariant ids == IdsUpTo(managers, m, 0) && nextEnvId == Before(managers, m, 0)
    {
      for rank := 0 to |managers|
        invariant ids == IdsUpTo(managers, m, rank) && nextEnvId == Before(managers, m, rank)
      {
        IdsNext(managers, m, rank);
        CounterNext(managers, m, rank);
        if m < |managers[rank]| {
          ids := ids[rank := ids[rank] + [nextEnvId]];
          nextEnvId := nextEnvId + 1;
        }
      }
      IdsNextRow(managers, m);
    }
    AllIds(managers, most);
  }

  // ---------------------------------------------------------------- slots

  datatype SlotSpec = SlotSpec(slotId: nat, localSlotIndex: nat, envRank: nat, envId: nat, localManager: nat,
      rolloutRank: int, batchSize: int)

  /** `base + (1 if i < rem else 0)`; floor division by a positive number. */
  function Balanced(size: int, slots: nat): seq<int>
    requires slots > 0
  {
    seq(slots, i => size / slots + if i < size % slots then 1 else 0)
  }

  lemma NextMultiple(k: nat, base: int)
    requires k > 0
    ensures k * base == (k - 1) * base + base
  {
  }

  lemma {:induction false} BalancedPrefix(size: int, slots: nat, k: nat)
    requires 0 < slots && k <= slots
    ensures Sum(Balanced(size, slots)[..k]) == k * (size / slots) + if k < size % slots then k else size % slots
  {
    if k > 0 {
      BalancedPrefix(size, slots, k - 1);
      assert Balanced(size, slots)[..k][..k - 1] == Balanced(size, slots)[..k - 1];
      NextMultiple(k, size / slots);
    }
  }

  lemma BalancedSum(size: int, slots: nat)
    requires slots > 0
    ensures Sum(Balanced(size, slots)) == size
  {
    BalancedPrefix(size, slots, slots);
    assert Balanced(size, slots)[..slots] == Balanced(size, slots);
    assert size == slots * (size / slots) + size % slots;
  }

  /**
   * The default split gives everything out, in sizes that differ by at most one; all are positive iff there is one for
   * every slot.
   */
  lemma BalancedMeans(size: int, slots: nat)
    requires slots > 0
    ensures Sum(Balanced(size, slots)) == size
    ensures forall i, j :: 0 <= i < j < slots ==> 0 <= Balanced(size, slots)[i] - Balanced(size, slots)[j] <= 1
    ensures 0 in Balanced(size, slots) <==> 0 < size + slots && size < slots
    ensures AllPositive(Balanced(size, slots)) <==> size >= slots
  {
    BalancedSum(size, slots);
    hide Sum;
    Quotients(size, slots);
    BalancedEnds(size, slots);
  }

  lemma BalancedEnds(size: int, slots: nat)
    requires slots > 0
    ensures Balanced(size, slots)[slots - 1] == size / slots
    ensures size % slots > 0 ==> Balanced(size, slots)[0] == size / slots + 1
  {
  }

  lemma Quotients(size: int, slots: nat)
    requires slots > 0
    ensures size / slots >= 1 <==> size >= slots
    ensures size / slots == 0 <==> 0 <= size < slots
    ensures size / slots == -1 && size % slots > 0 <==> 0 < size + slots && size < 0
  {
  }

  /** What the slot loop works on. */
  datatype Inputs = Inputs(managers: Managers, ids: Ids, ranks: RankLists, splits: Splits)

  /**
   * The four lists have one entry per manager, the ids are those allocated, rollout ranks are in range and given splits
   * fit.
   */
  ghost predicate WellShaped(ip: Inputs, world: nat) {
    && SameShape(ip.managers, ip.ranks) && ip.ids == EnvIds(ip.managers)
    && SplitsOk(ip.splits, ip.managers, ip.ranks)
    && forall r, m :: 0 <= r < |ip.ranks| && 0 <= m < |ip.ranks[r]| ==> InRange(ip.ranks[r][m], world)
  }

  predicate At(ip: Inputs, r: nat, m: nat) {
    && r < |ip.managers| && r < |ip.ids| && r < |ip.ranks| && r < |ip.splits|
    && m < |ip.managers[r]| && m < |ip.ids[r]| && m < |ip.ranks[r]| && m < |ip.splits[r]|
  }

  lemma ShapedAt(ip: Inputs, world: nat, r: nat, m: nat)
    requires WellShaped(ip, world) && r < |ip.managers| && m < |ip.managers[r]|
    ensures At(ip, r, m) && SplitOk(ip.splits[r][m], ip.managers[r][m], |ip.ranks[r][m]|)
      && InRange(ip.ranks[r][m], world)
    ensures ip.ids[r][m] == Before(ip.managers, m, r)
  {
    assert SplitRowOk(ip.splits[r], ip.managers[r], ip.ranks[r]);
  }

  /** The manager's batch can be split: sizes are given, or no slot would be empty. */
  predicate Splittable(ip: Inputs, r: nat, m: nat)
    requires At(ip, r, m)
  {
    ip.splits[r][m].Some? || (|ip.ranks[r][m]| > 0 && 0 !in Balanced(ip.managers[r][m], |ip.ranks[r][m]|))
  }

  predicate CanSplit(ip: Inputs, r: nat, m: nat) {
    At(ip, r, m) && Splittable(ip, r, m)
  }

  function SplitSizes(ip: Inputs, r: nat, m: nat): seq<int>
    requires At(ip, r, m)
  {
    match ip.splits[r][m]
    case Some(split) => split
    case None => if |ip.ranks[r][m]| > 0 then Balanced(ip.managers[r][m], |ip.ranks[r][m]|) else []
  }

  function SlotCount(ip: Inputs, r: nat, m: nat): nat
    requires At(ip, r, m)
  {
    Min(|ip.ranks[r][m]|, |SplitSizes(ip, r, m)|)
  }

  function SlotAt(ip: Inputs, r: nat, m: nat, start: nat, j: nat): SlotSpec
    requires At(ip, r, m) && j < SlotCount(ip, r, m)
  {
    SlotSpec(start + j, j, r, ip.ids[r][m], m, ip.ranks[r][m][j], SplitSizes(ip, r, m)[j])
  }

  /** The first `count` slots of one manager, numbered from `start`. */
  function Block(ip: Inputs, r: nat, m: nat, start: nat, count: nat): (b: seq<SlotSpec>)
    requires At(ip, r, m) && count <= SlotCount(ip, r, m)
    ensures |b| == count
  {
    seq(count, j requires 0 <= j < count => SlotAt(ip, r, m, start, j))
  }

  /** All slots of the managers before `m` of rank `r`, counting by rank first. */
  function Emitted(ip: Inputs, r: nat, m: nat): seq<SlotSpec>
    decreases r, m
  {
    if m > 0 then
      var before := Emitted(ip, r, m - 1);
      if At(ip, r, m - 1) then before + Block(ip, r, m - 1, |before|, SlotCount(ip, r, m - 1)) else before
    else if 0 < r <= |ip.managers| then Emitted(ip, r - 1, |ip.managers[r - 1]|)
    else []
  }

  function OnRollout(slots: seq<SlotSpec>, k: nat): seq<SlotSpec> {
    if slots == [] then [] else
      OnRollout(slots[..|slots| - 1], k) + if slots[|slots| - 1].rolloutRank == k then [slots[|slots| - 1]] else []
  }

  function OfEnv(slots: seq<SlotSpec>, id: nat): seq<SlotSpec> {
    if slots == [] then [] else
      OfEnv(slots[..|slots| - 1], id) + if slots[|slots| - 1].envId == id then [slots[|slots| - 1]] else []
  }

  function Rollouts(slots: seq<SlotSpec>, world: nat): map<nat, seq<SlotSpec>> {
    map k: nat | k < world :: OnRollout(slots, k)
  }

  datatype FlexPlan = FlexPlan(managers: Managers, ids: Ids, byEnv: map<nat, seq<SlotSpec>>,
      byRollout: map<nat, seq<SlotSpec>>, slotCount: nat)

  // ---------------------------------------------------------------- the slot loop

  /** The ids of the managers before `m` of rank `r`, counting by rank first. */
  ghost function IdSet(ip: Inputs, r: nat, m: nat): set<nat>
    decreases r, m
  {
    if m > 0 then IdSet(ip, r, m - 1) + if At(ip, r, m - 1) then {ip.ids[r][m - 1]} else {}
    else if 0 < r <= |ip.managers| then IdSet(ip, r - 1, |ip.managers[r - 1]|)
    else {}
  }

  /** The index by environment holds the slots of the managers seen so far. */
  ghost predicate EnvIndex(ip: Inputs, byEnv: map<nat, seq<SlotSpec>>, slots: seq<SlotSpec>, r: nat, m: nat) {
    byEnv.Keys == IdSet(ip, r, m) && forall id :: id in byEnv ==> byEnv[id] == OfEnv(slots, id)
  }

  ghost predicate AllSplittable(ip: Inputs, r: nat)
    requires r < |ip.managers|
  {
    forall m: nat :: m < |ip.managers[r]| ==> CanSplit(ip, r, m)
  }

  lemma {:induction false} IdsAreEarlier(ip: Inputs, world: nat, r: nat, m: nat, id: nat)
    requires WellShaped(ip, world) && r <= |ip.managers| && (m > 0 ==> r < |ip.managers| && m <= |ip.managers[r]|)
    ensures id in IdSet(ip, r, m) <==> exists n: nat, q: nat ::
      IsManager(ip.managers, n, q) && (q < r || (q == r && n < m)) && Before(ip.managers, n, q) == id
    decreases r, m
  {
    if m > 0 {
      IdsAreEarlier(ip, world, r, m - 1, id);
      ShapedAt(ip, world, r, m - 1);
      assert IsManager(ip.managers, m - 1, r);
    } else if r > 0 {
      IdsAreEarlier(ip, world, r - 1, |ip.managers[r - 1]|, id);
    }
  }

  lemma NewId(ip: Inputs, world: nat, r: nat, m: nat)
    requires WellShaped(ip, world) && r < |ip.managers| && m < |ip.managers[r]|
    ensures At(ip, r, m) && ip.ids[r][m] !in IdSet(ip, r, m)
  {
    ShapedAt(ip, world, r, m);
    var id := ip.ids[r][m];
    IdsAreEarlier(ip, world, r, m, id);
    hide IdSet, WellShaped, Before;
    if id in IdSet(ip, r, m) {
      var n: nat, q: nat :| IsManager(ip.managers, n, q) && (q < r || (q == r && n < m))
        && Before(ip.managers, n, q) == id;
      IdsOrdered(ip.managers, n, q, m, r);
    }
  }

  lemma {:induction false} EmittedEnvs(ip: Inputs, r: nat, m: nat, id: nat)
    requires id !in IdSet(ip, r, m)
    ensures OfEnv(Emitted(ip, r, m), id) == []
    decreases r, m
  {
    if m > 0 {
      EmittedEnvs(ip, r, m - 1, id);
      if At(ip, r, m - 1) {
        var before := Emitted(ip, r, m - 1);
        BlockOtherEnv(ip, r, m - 1, before, |before|, SlotCount(ip, r, m - 1), id);
      }
    } else if 0 < r <= |ip.managers| {
      EmittedEnvs(ip, r - 1, |ip.managers[r - 1]|, id);
    }
  }

  lemma BlockNext(ip: Inputs, r: nat, m: nat, start: nat, k: nat)
    requires At(ip, r, m) && k < SlotCount(ip, r, m)
    ensures Block(ip, r, m, start, k + 1) == Block(ip, r, m, start, k) + [SlotAt(ip, r, m, start, k)]
  {
  }

  lemma {:induction false} BlockOtherEnv(ip: Inputs, r: nat, m: nat, slots: seq<SlotSpec>, start: nat, k: nat, id: nat)
    requires At(ip, r, m) && k <= SlotCount(ip, r, m) && ip.ids[r][m] != id
    ensures OfEnv(slots + Block(ip, r, m, start, k), id) == OfEnv(slots, id)
  {
    if k > 0 {
      BlockOtherEnv(ip, r, m, slots, start, k - 1, id);
      BlockNext(ip, r, m, start, k - 1);
      hide OfEnv, Block, SlotCount;
      SnocEnv(slots + Block(ip, r, m, start, k - 1), SlotAt(ip, r, m, start, k - 1), id);
      assert slots + Block(ip, r, m, start, k)
        == slots + Block(ip, r, m, start, k - 1) + [SlotAt(ip, r, m, start, k - 1)];
    } else {
      assert slots + Block(ip, r, m, start, 0) == slots;
    }
  }

  lemma {:induction false} BlockOwnEnv(ip: Inputs, r: nat, m: nat, slots: seq<SlotSpec>, start: nat, k: nat)
    requires At(ip, r, m) && k <= SlotCount(ip, r, m) && OfEnv(slots, ip.ids[r][m]) == []
    ensures OfEnv(slots + Block(ip, r, m, start, k), ip.ids[r][m]) == Block(ip, r, m, start, k)
  {
    if k > 0 {
      BlockOwnEnv(ip, r, m, slots, start, k - 1);
      BlockNext(ip, r, m, start, k - 1);
      hide OfEnv, Block, SlotCount;
      SnocEnv(slots + Block(ip, r, m, start, k - 1), SlotAt(ip, r, m, start, k - 1), ip.ids[r][m]);
      assert slots + Block(ip, r, m, start, k)
        == slots + Block(ip, r, m, start, k - 1) + [SlotAt(ip, r, m, start, k - 1)];
    } else {
      assert slots + Block(ip, r, m, start, 0) == slots;
    }
  }

  lemma SnocEnv(slots: seq<SlotSpec>, s: SlotSpec, id: nat)
    ensures OfEnv(slots + [s], id) == OfEnv(slots, id) + if s.envId == id then [s] else []
  {
    assert (slots + [s])[..|slots|] == slots;
  }

  lemma SnocRollout(slots: seq<SlotSpec>, s: SlotSpec, k: nat)
    ensures OnRollout(slots + [s], k) == OnRollout(slots, k) + if s.rolloutRank == k then [s] else []
  {
    assert (slots + [s])[..|slots|] == slots;
  }

  /** Appending to the list of one rollout rank. */
  lemma RolloutsGrow(slots: seq<SlotSpec>, s: SlotSpec, world: nat)
    requires 0 <= s.rolloutRank < world
    ensures s.rolloutRank in Rollouts(slots, world)
    ensures Rollouts(slots + [s], world)
      == Rollouts(slots, world)[s.rolloutRank := Rollouts(slots, world)[s.rolloutRank] + [s]]
  {
    var own: nat := s.rolloutRank;
    var before, after := Rollouts(slots, world), Rollouts(slots + [s], world);
    var updated := before[own := before[own] + [s]];
    assert updated.Keys == before.Keys;
    assert after.Keys == before.Keys;
    forall k | k in after
      ensures after[k] == updated[k]
    {
      SnocRollout(slots, s, k);
    }
    assert after == updated;
  }

  /** A finished manager enters the index by environment and changes no other entry. */
  lemma EmittedNext(ip: Inputs, r: nat, m: nat)
    requires At(ip, r, m)
    ensures var before := Emitted(ip, r, m);
      Emitted(ip, r, m + 1) == before + Block(ip, r, m, |before|, SlotCount(ip, r, m))
  {
  }

  lemma EnvIndexGrows(ip: Inputs, world: nat, byEnv: map<nat, seq<SlotSpec>>, r: nat, m: nat)
    requires WellShaped(ip, world) && r < |ip.managers| && m < |ip.managers[r]| && At(ip, r, m)
    requires EnvIndex(ip, byEnv, Emitted(ip, r, m), r, m)
    ensures var before := Emitted(ip, r, m);
      EnvIndex(ip, byEnv[ip.ids[r][m] := Block(ip, r, m, |before|, SlotCount(ip, r, m))], Emitted(ip, r, m + 1), r,
        m + 1)
  {
    hide WellShaped, OfEnv, Block, SlotCount, IdSet, EnvIndex, Emitted;
    var before, count := Emitted(ip, r, m), SlotCount(ip, r, m);
    var own, block := ip.ids[r][m], Block(ip, r, m, |before|, count);
    NewId(ip, world, r, m);
    IdSetNext(ip, r, m);
    EmittedNext(ip, r, m);
    EmittedEnvs(ip, r, m, own);
    BlockOwnEnv(ip, r, m, before, |before|, count);
    forall id | id != own
      ensures OfEnv(before + block, id) == OfEnv(before, id)
    {
      BlockOtherEnv(ip, r, m, before, |before|, count, id);
    }
    IndexNext(ip, byEnv, before, before + block, r, m, own, block);
  }

  lemma IndexNext(ip: Inputs, byEnv: map<nat, seq<SlotSpec>>, before: seq<SlotSpec>, after: seq<SlotSpec>, r: nat,
      m: nat, own: nat, block: seq<SlotSpec>)
    requires EnvIndex(ip, byEnv, before, r, m) && IdSet(ip, r, m + 1) == IdSet(ip, r, m) + {own}
    requires OfEnv(after, own) == block && forall id :: id != own ==> OfEnv(after, id) == OfEnv(before, id)
    ensures EnvIndex(ip, byEnv[own := block], after, r, m + 1)
  {
    hide IdSet, OfEnv;
  }

  lemma IdSetNext(ip: Inputs, r: nat, m: nat)
    requires At(ip, r, m)
    ensures IdSet(ip, r, m + 1) == IdSet(ip, r, m) + {ip.ids[r][m]}
  {
  }

  lemma RowDone(ip: Inputs, r: nat)
    requires r < |ip.managers|
    ensures Emitted(ip, r + 1, 0) == Emitted(ip, r, |ip.managers[r]|)
      && IdSet(ip, r + 1, 0) == IdSet(ip, r, |ip.managers[r]|)
  {
  }

  lemma RowSplittable(ip: Inputs, r: nat)
    requires r < |ip.managers| && forall m: nat :: m < |ip.managers[r]| ==> CanSplit(ip, r, m)
    ensures AllSplittable(ip, r)
  {
  }

  lemma NotSplittable(ip: Inputs, r: nat, m: nat)
    requires At(ip, r, m) && !Splittable(ip, r, m) && r < |ip.managers| && m < |ip.managers[r]|
    ensures !AllSplittable(ip, r)
  {
    assert !CanSplit(ip, r, m);
  }

  lemma SlotFits(ip: Inputs, world: nat, r: nat, m: nat)
    requires WellShaped(ip, world) && At(ip, r, m) && Splittable(ip, r, m)
    ensures SlotCount(ip, r, m) == |ip.ranks[r][m]| == |SplitSizes(ip, r, m)|
    ensures InRange(ip.ranks[r][m], world)
  {
    ShapedAt(ip, world, r, m);
  }

  /** The slot loop; it raises when some manager cannot be split. */
  method PlaceSlots(ip: Inputs, world: nat) returns (r: Outcome<FlexPlan>)
    requires WellShaped(ip, world)
    ensures r.Returned? <==> forall k :: 0 <= k < |ip.managers| ==> AllSplittable(ip, k)
    ensures r.Returned? ==>
      && r.value.managers == ip.managers && r.value.ids == ip.ids
      && var slots := Emitted(ip, |ip.managers|, 0);
         r.value.slotCount == |slots| && r.value.byRollout == Rollouts(slots, world)
           && EnvIndex(ip, r.value.byEnv, slots, |ip.managers|, 0)
  {
    hide WellShaped, Emitted, IdSet, SlotCount, SplitSizes, Block, SlotAt, Rollouts, AllSplittable, EnvIndex, At,
      Splittable, InRange, Balanced;
    Start(ip, world);
    var byEnv: map<nat, seq<SlotSpec>> := map[];
    var byRollout: map<nat, seq<SlotSpec>> := map[];
    for k := 0 to world
      invariant byRollout == Rollouts([], k)
    {
      EmptyRollouts(k);
      byRollout := byRollout[k := []];
    }
    var nextSlotId: nat := 0;
    ghost var slots: seq<SlotSpec> := [];
    for rank := 0 to |ip.managers|
      invariant slots == Emitted(ip, rank, 0) && nextSlotId == |slots|
      invariant byRollout == Rollouts(slots, world) && EnvIndex(ip, byEnv, slots, rank, 0)
      invariant forall k :: 0 <= k < rank ==> AllSplittable(ip, k)
    {
      for m := 0 to |ip.managers[rank]|
        invariant slots == Emitted(ip, rank, m) && nextSlotId == |slots|
        invariant byRollout == Rollouts(slots, world) && EnvIndex(ip, byEnv, slots, rank, m)
        invariant forall j: nat :: j < m ==> CanSplit(ip, rank, j)
      {
        ShapedAt(ip, world, rank, m);
        AtMeans(ip, rank, m);
        var n := |ip.ranks[rank][m]|;
        var sizes;
        match ip.splits[rank][m] {
        case Some(split) =>
          sizes := split;
        case None =>
          if n == 0 {
            NotSplittable(ip, rank, m);
            return Raised;
          }
          sizes := Balanced(ip.managers[rank][m], n);
          if 0 in sizes {
            NotSplittable(ip, rank, m);
            return Raised;
          }
        }
        SlotFits(ip, world, rank, m);
        var specs: seq<SlotSpec> := [];
        for j := 0 to n
          invariant slots == Emitted(ip, rank, m) + specs && nextSlotId == |slots|
          invariant specs == Block(ip, rank, m, |Emitted(ip, rank, m)|, j)
          invariant byRollout == Rollouts(slots, world)
        {
          var spec := SlotSpec(nextSlotId, j, rank, ip.ids[rank][m], m, ip.ranks[rank][m][j], sizes[j]);
          NextSpec(ip, world, rank, m, |Emitted(ip, rank, m)|, j);
          RolloutsGrow(slots, spec, world);
          specs := specs + [spec];
          byRollout := byRollout[spec.rolloutRank := byRollout[spec.rolloutRank] + [spec]];
          slots := slots + [spec];
          nextSlotId := nextSlotId + 1;
        }
        EnvIndexGrows(ip, world, byEnv, rank, m);
        EmittedNext(ip, rank, m);
        byEnv := byEnv[ip.ids[rank][m] := specs];
      }
      RowSplittable(ip, rank);
      RowDone(ip, rank);
      EnvIndexRow(ip, byEnv, slots, rank);
    }
    r := Returned(FlexPlan(ip.managers, ip.ids, byEnv, byRollout, nextSlotId));
  }

  lemma AtMeans(ip: Inputs, r: nat, m: nat)
    requires At(ip, r, m)
    ensures r < |ip.managers| && r < |ip.ids| && r < |ip.ranks| && r < |ip.splits|
    ensures m < |ip.managers[r]| && m < |ip.ids[r]| && m < |ip.ranks[r]| && m < |ip.splits[r]|
    ensures Splittable(ip, r, m) <==>
      ip.splits[r][m].Some? || (|ip.ranks[r][m]| > 0 && 0 !in Balanced(ip.managers[r][m], |ip.ranks[r][m]|))
    ensures SplitSizes(ip, r, m) == match ip.splits[r][m]
      case Some(split) => split
      case None => if |ip.ranks[r][m]| > 0 then Balanced(ip.managers[r][m], |ip.ranks[r][m]|) else []
  {
  }

  lemma Start(ip: Inputs, world: nat)
    ensures Emitted(ip, 0, 0) == [] && Rollouts([], 0) == map[]
    ensures EnvIndex(ip, map[], [], 0, 0)
  {
  }

  lemma EmptyRollouts(k: nat)
    ensures Rollouts([], k + 1) == Rollouts([], k)[k := []]
  {
    var before, after := Rollouts([], k), Rollouts([], k + 1);
    assert after.Keys == before.Keys + {k};
  }

  lemma EnvIndexRow(ip: Inputs, byEnv: map<nat, seq<SlotSpec>>, slots: seq<SlotSpec>, r: nat)
    requires r < |ip.managers| && EnvIndex(ip, byEnv, slots, r, |ip.managers[r]|)
    ensures EnvIndex(ip, byEnv, slots, r + 1, 0)
  {
    RowDone(ip, r);
  }

  lemma NextSpec(ip: Inputs, world: nat, r: nat, m: nat, start: nat, j: nat)
    requires At(ip, r, m) && SlotCount(ip, r, m) == |ip.ranks[r][m]| == |SplitSizes(ip, r, m)| && j < |ip.ranks[r][m]|
    requires InRange(ip.ranks[r][m], world)
    ensures Block(ip, r, m, start, j + 1) ==
      Block(ip, r, m, start, j)
        + [SlotSpec(start + j, j, r, ip.ids[r][m], m, ip.ranks[r][m][j], SplitSizes(ip, r, m)[j])]
    ensures 0 <= ip.ranks[r][m][j] < world
  {
    BlockNext(ip, r, m, start, j);
  }
}
