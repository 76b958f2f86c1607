/** `build_flex_plan` as a whole: ids, both indexes and the load agree. */
module FlexProps {
  import opened Wrappers
  import opened Arithmetic
  import opened FlexInputs
  import opened FlexPlans

  /** The configuration; absent lists are filled with defaults. */
  datatype Config = Config(managers: Option<Managers>, ranks: Option<RankLists>, splits: Option<Splits>, envs: nat,
      rollouts: nat, stages: nat, size: int)

  function ManagersOf(c: Config): Managers {
    if c.managers.Some? then c.managers.value else seq(c.envs, _ => seq(c.stages, _ => c.size))
  }

  function RanksOf(c: Config): RankLists {
    if c.ranks.Some? then c.ranks.value else DefaultRanks(ManagersOf(c), c.rollouts)
  }

  function SplitsOf(c: Config): Splits {
    if c.splits.Some? then c.splits.value else NoSplits(ManagersOf(c))
  }

  function InputsOf(c: Config): Inputs {
    Inputs(ManagersOf(c), EnvIds(ManagersOf(c)), RanksOf(c), SplitsOf(c))
  }

  /** The three normalisations succeed. */
  predicate Normal(c: Config) {
    && (c.managers.Some? ==> ManagersOk(c.managers.value, c.envs))
    && (c.ranks.Some? ==> RanksOk(c.ranks.value, ManagersOf(c), c.rollouts))
    && SameShape(ManagersOf(c), RanksOf(c))
    && (c.splits.Some? ==> SplitsOk(c.splits.value, ManagersOf(c), RanksOf(c)))
  }

  lemma RanksShape(c: Config)
    requires c.ranks.Some? ==> RanksOk(c.ranks.value, ManagersOf(c), c.rollouts)
    ensures SameShape(ManagersOf(c), RanksOf(c))
    ensures forall r, m :: 0 <= r < |RanksOf(c)| && 0 <= m < |RanksOf(c)[r]| ==> InRange(RanksOf(c)[r][m], c.rollouts)
  {
    if c.ranks.Some? {
      forall r, m | 0 <= r < |RanksOf(c)| && 0 <= m < |RanksOf(c)[r]|
        ensures InRange(RanksOf(c)[r][m], c.rollouts)
      {
        assert RankRowOk(RanksOf(c)[r], |ManagersOf(c)[r]|, c.rollouts);
        assert RankListOk(RanksOf(c)[r][m], c.rollouts);
      }
    }
  }

  lemma NormalIsWellShaped(c: Config)
    requires Normal(c)
    ensures WellShaped(InputsOf(c), c.rollouts) && |ManagersOf(c)| == c.envs
  {
    RanksShape(c);
    if c.splits.None? {
      forall r | 0 <= r < |ManagersOf(c)|
        ensures SplitRowOk(NoSplits(ManagersOf(c))[r], ManagersOf(c)[r], RanksOf(c)[r])
      {
      }
    }
  }

  /** What the finished plan is, in terms of the list of all slots. */
  ghost predicate Describes(ip: Inputs, world: nat, plan: FlexPlan) {
    && plan.managers == ip.managers && plan.ids == ip.ids
    && var slots := Emitted(ip, |ip.managers|, 0);
       plan.slotCount == |slots| && plan.byRollout == Rollouts(slots, world)
         && EnvIndex(ip, plan.byEnv, slots, |ip.managers|, 0)
  }

  /** `build_flex_plan`; without any environment rank, `max` of nothing raises. */
  method BuildFlexPlan(c: Config) returns (r: Outcome<FlexPlan>)
    ensures r.Returned? <==> Normal(c) && c.envs > 0 && forall k :: 0 <= k < c.envs ==> AllSplittable(InputsOf(c), k)
    ensures r.Returned? ==> Describes(InputsOf(c), c.rollouts, r.value)
  {
    hide WellShaped, AllSplittable, Describes, EnvIds, DefaultRanks, NoSplits, EnvIndex, Emitted, Rollouts;
    var managers :- NormalizeManagers(c.managers, c.envs, c.stages, c.size);
    var ranks :- NormalizeRanks(c.ranks, managers, c.rollouts);
    RanksShape(c);
    var splits :- NormalizeSplits(c.splits, managers, ranks);
    NormalIsWellShaped(c);
    if managers == [] {
      return Raised;
    }
    var ids := AllocateEnvIds(managers);
    r := PlaceSlots(Inputs(managers, ids, ranks, splits), c.rollouts);
    if r.Returned? {
      Described(InputsOf(c), c.rollouts, r.value);
    }
  }

  lemma Described(ip: Inputs, world: nat, plan: FlexPlan)
    requires plan.managers == ip.managers && plan.ids == ip.ids
    requires var slots := Emitted(ip, |ip.managers|, 0);
       plan.slotCount == |slots| && plan.byRollout == Rollouts(slots, world)
         && EnvIndex(ip, plan.byEnv, slots, |ip.managers|, 0)
    ensures Describes(ip, world, plan)
  {
  }

  // ---------------------------------------------------------------- slot ids

  ghost predicate Numbered(slots: seq<SlotSpec>) {
    forall i :: 0 <= i < |slots| ==> slots[i].slotId == i
  }

  /** Slot ids are 0, 1, ... in the order of allocation. */
  lemma {:induction false} EmittedNumbered(ip: Inputs, r: nat, m: nat)
    ensures Numbered(Emitted(ip, r, m))
    decreases r, m
  {
    if m > 0 {
      EmittedNumbered(ip, r, m - 1);
    } else if 0 < r <= |ip.managers| {
      EmittedNumbered(ip, r - 1, |ip.managers[r - 1]|);
    }
  }

  // ---------------------------------------------------------------- the index by rollout rank

  ghost predicate Increasing(slots: seq<SlotSpec>) {
    forall i, j :: 0 <= i < j < |slots| ==> slots[i].slotId < slots[j].slotId
  }

  lemma {:induction false} OnRolloutMembers(slots: seq<SlotSpec>, k: nat, s: SlotSpec)
    ensures s in OnRollout(slots, k) <==> s in slots && s.rolloutRank == k
  {
    if slots != [] {
      OnRolloutMembers(slots[..|slots| - 1], k, s);
      assert slots == slots[..|slots| - 1] + [slots[|slots| - 1]];
    }
  }

  lemma {:induction false} OnRolloutIncreasing(slots: seq<SlotSpec>, k: nat)
    requires Numbered(slots)
    ensures Increasing(OnRollout(slots, k)) && forall s :: s in OnRollout(slots, k) ==> s.slotId < |slots|
  {
    if slots != [] {
      OnRolloutIncreasing(slots[..|slots| - 1], k);
    }
  }

  lemma {:induction false} RolloutsInRange(ip: Inputs, world: nat, r: nat, m: nat)
    requires WellShaped(ip, world)
    ensures forall s :: s in Emitted(ip, r, m) ==> 0 <= s.rolloutRank < world
    decreases r, m
  {
    hide EnvIds, SplitsOk;
    if m > 0 {
      RolloutsInRange(ip, world, r, m - 1);
    } else if 0 < r <= |ip.managers| {
      RolloutsInRange(ip, world, r - 1, |ip.managers[r - 1]|);
    }
  }

  /**
   * Every slot is in the list of its rollout rank and in no other; the lists are in order of slot id and hold nothing
   * else.
   */
  lemma RolloutIndexAgrees(ip: Inputs, world: nat, plan: FlexPlan)
    requires WellShaped(ip, world) && Describes(ip, world, plan)
    ensures forall s :: s in Emitted(ip, |ip.managers|, 0) ==> 0 <= s.rolloutRank < world
    ensures forall k: nat :: k in plan.byRollout <==> k < world
    ensures forall k: nat :: k < world ==> Increasing(plan.byRollout[k])
    ensures forall k: nat, s :: k < world ==>
      (s in plan.byRollout[k] <==> s in Emitted(ip, |ip.managers|, 0) && s.rolloutRank == k)
  {
    var slots := Emitted(ip, |ip.managers|, 0);
    RolloutsInRange(ip, world, |ip.managers|, 0);
    EmittedNumbered(ip, |ip.managers|, 0);
    hide WellShaped, Emitted, EnvIndex;
    forall k: nat | k < world
      ensures k in plan.byRollout && Increasing(plan.byRollout[k])
      ensures forall s :: s in plan.byRollout[k] <==> s in slots && s.rolloutRank == k
    {
      OnRolloutIncreasing(slots, k);
      forall s
        ensures s in OnRollout(slots, k) <==> s in slots && s.rolloutRank == k
      {
        OnRolloutMembers(slots, k, s);
      }
    }
  }

  // ---------------------------------------------------------------- the index by environment

  /** The slots before manager `m` of rank `r`. */
  function StartOf(ip: Inputs, r: nat, m: nat): nat {
    |Emitted(ip, r, m)|
  }

  /** One more manager placed: its slots are the only new ones of its environment. */
  lemma EnvStep(ip: Inputs, world: nat, r: nat, m: nat, q: nat, n: nat)
    requires WellShaped(ip, world) && r < |ip.managers| && m < |ip.managers[r]| && q < |ip.managers|
      && n < |ip.managers[q]|
    requires At(ip, r, m)
    ensures OfEnv(Emitted(ip, q, n + 1), ip.ids[r][m]) ==
      if r == q && m == n then Block(ip, r, m, StartOf(ip, r, m), SlotCount(ip, r, m))
      else OfEnv(Emitted(ip, q, n), ip.ids[r][m])
  {
    ShapedAt(ip, world, q, n);
    EmittedNext(ip, q, n);
    NewId(ip, world, r, m);
    EmittedEnvs(ip, r, m, ip.ids[r][m]);
    var before, count := Emitted(ip, q, n), SlotCount(ip, q, n);
    if r == q && m == n {
      BlockOwnEnv(ip, r, m, before, |before|, count);
    } else {
      OtherManager(ip, world, r, m, q, n);
      BlockOtherEnv(ip, q, n, before, |before|, count, ip.ids[r][m]);
    }
  }

  lemma ManagerAt(ip: Inputs, world: nat, r: nat, m: nat)
    requires WellShaped(ip, world) && r < |ip.managers| && m < |ip.managers[r]|
    ensures At(ip, r, m)
  {
    ShapedAt(ip, world, r, m);
  }

  ghost predicate EntryKept(ip: Inputs, r: nat, m: nat, q: nat, n: nat)
    requires At(ip, r, m)
  {
    OfEnv(Emitted(ip, q, n), ip.ids[r][m]) == Block(ip, r, m, StartOf(ip, r, m), SlotCount(ip, r, m))
  }

  lemma EntryStep(ip: Inputs, world: nat, r: nat, m: nat, q: nat, n: nat)
    requires WellShaped(ip, world) && r < |ip.managers| && m < |ip.managers[r]| && q < |ip.managers|
      && n < |ip.managers[q]|
    requires At(ip, r, m) && ((r == q && m == n) || EntryKept(ip, r, m, q, n))
    ensures EntryKept(ip, r, m, q, n + 1)
  {
    EnvStep(ip, world, r, m, q, n);
    hide WellShaped, Emitted, Block, OfEnv, SlotCount, StartOf;
  }

  lemma EntryRow(ip: Inputs, r: nat, m: nat, q: nat)
    requires At(ip, r, m) && q < |ip.managers| && EntryKept(ip, r, m, q, |ip.managers[q]|)
    ensures EntryKept(ip, r, m, q + 1, 0)
  {
    RowDone(ip, q);
  }

  /** The slots of a manager stay what they were when it was placed. */
  lemma {:induction false} EnvEntry(ip: Inputs, world: nat, r: nat, m: nat, q: nat, n: nat)
    requires WellShaped(ip, world) && r < |ip.managers| && m < |ip.managers[r]|
    requires q <= |ip.managers| && (n > 0 ==> q < |ip.managers| && n <= |ip.managers[q]|)
      && (r < q || (r == q && m < n))
    ensures At(ip, r, m) && EntryKept(ip, r, m, q, n)
    decreases q, n
  {
    hide *;
    ManagerAt(ip, world, r, m);
    if n > 0 {
      if r != q || m != n - 1 {
        EnvEntry(ip, world, r, m, q, n - 1);
      }
      EntryStep(ip, world, r, m, q, n - 1);
    } else {
      EnvEntry(ip, world, r, m, q - 1, |ip.managers[q - 1]|);
      EntryRow(ip, r, m, q - 1);
    }
  }

  lemma OtherManager(ip: Inputs, world: nat, r: nat, m: nat, q: nat, n: nat)
    requires WellShaped(ip, world) && r < |ip.managers| && m < |ip.managers[r]| && q < |ip.managers|
      && n < |ip.managers[q]|
    requires r != q || m != n
    ensures At(ip, r, m) && At(ip, q, n) && ip.ids[r][m] != ip.ids[q][n]
  {
    ShapedAt(ip, world, r, m);
    ShapedAt(ip, world, q, n);
    IdsOrdered(ip.managers, m, r, n, q);
  }

  /** The index by environment has exactly the ids 0 to N-1. */
  lemma EnvIdsBijective(ip: Inputs, world: nat, plan: FlexPlan, id: nat)
    requires WellShaped(ip, world) && Describes(ip, world, plan) && ip.managers != []
    ensures id in plan.byEnv <==> id < Total(ip.managers)
  {
    var most := MaxManagers(ip.managers);
    IdsBelowTotal(ip.managers, most);
    IdsAreEarlier(ip, world, |ip.managers|, 0, id);
    hide WellShaped, Emitted, Before, IdSet;
    if id in plan.byEnv {
      var n: nat, q: nat :| IsManager(ip.managers, n, q) && Before(ip.managers, n, q) == id;
      BeforeIncreases(ip.managers, n, q, most, 0);
    }
    if id < Total(ip.managers) {
      var m, r := IdTaken(ip.managers, most, 0, id);
    }
  }

  /** Every manager's entry holds its slots, consecutively numbered, one for each rollout rank of its list. */
  lemma EnvIndexAgrees(ip: Inputs, world: nat, plan: FlexPlan, r: nat, m: nat)
    requires WellShaped(ip, world) && Describes(ip, world, plan) && r < |ip.managers| && m < |ip.managers[r]|
    requires At(ip, r, m) && Splittable(ip, r, m)
    ensures ip.ids[r][m] in plan.byEnv
    ensures var b := plan.byEnv[ip.ids[r][m]];
      && |b| == |ip.ranks[r][m]| == |SplitSizes(ip, r, m)|
      && forall j :: 0 <= j < |b| ==>
           b[j] == SlotSpec(StartOf(ip, r, m) + j, j, r, ip.ids[r][m], m, ip.ranks[r][m][j], SplitSizes(ip, r, m)[j])
  {
    ShapedAt(ip, world, r, m);
    SlotFits(ip, world, r, m);
    EnvEntry(ip, world, r, m, |ip.managers|, 0);
    IdsAreEarlier(ip, world, |ip.managers|, 0, ip.ids[r][m]);
    assert IsManager(ip.managers, m, r);
    hide WellShaped, Emitted, Before, IdSet;
  }

  /** Without rollout ranks of its own, a manager has a slot for each rollout rank, and slot `j` goes to rank `j`. */
  lemma DefaultRouting(c: Config, plan: FlexPlan, r: nat, m: nat)
    requires Normal(c) && c.ranks.None? && Describes(InputsOf(c), c.rollouts, plan)
    requires var ip := InputsOf(c);
      && WellShaped(ip, c.rollouts) && r < |ip.managers| && m < |ip.managers[r]| && At(ip, r, m) && Splittable(ip, r, m)
    ensures InputsOf(c).ids[r][m] in plan.byEnv
    ensures var b := plan.byEnv[InputsOf(c).ids[r][m]];
      |b| == c.rollouts && forall j :: 0 <= j < |b| ==> b[j].rolloutRank == j
  {
    var ip := InputsOf(c);
    EnvIndexAgrees(ip, c.rollouts, plan, r, m);
    assert ip.ranks == DefaultRanks(ip.managers, c.rollouts);
    hide WellShaped, Describes, SplitSizes, DefaultRanks, EnvIds, Splittable;
  }

  /** Its sizes sum to the manager's batch, and are positive exactly if the batch is. */
  lemma SplitSizesSum(ip: Inputs, world: nat, r: nat, m: nat)
    requires WellShaped(ip, world) && r < |ip.managers| && m < |ip.managers[r]|
    requires At(ip, r, m) && Splittable(ip, r, m) && ip.ranks[r][m] != []
    ensures Sum(SplitSizes(ip, r, m)) == ip.managers[r][m]
    ensures AllPositive(SplitSizes(ip, r, m)) <==> ip.managers[r][m] > 0
  {
    ShapedAt(ip, world, r, m);
    match ip.splits[r][m]
    case Some(split) => PositiveSum(split);
    case None => BalancedMeans(ip.managers[r][m], |ip.ranks[r][m]|);
  }

  lemma {:induction false} PositiveSum(s: seq<int>)
    requires AllPositive(s)
    ensures Sum(s) >= |s|
  {
    if s != [] {
      PositiveSum(s[..|s| - 1]);
    }
  }

  // ---------------------------------------------------------------- the load

  /** How many environments the slots serve. */
  function Load(slots: seq<SlotSpec>): int {
    if slots == [] then 0 else Load(slots[..|slots| - 1]) + slots[|slots| - 1].batchSize
  }

  function RolloutLoad(slots: seq<SlotSpec>, k: nat): int {
    if k == 0 then 0 else RolloutLoad(slots, k - 1) + Load(OnRollout(slots, k - 1))
  }

  lemma LoadSnoc(slots: seq<SlotSpec>, s: SlotSpec)
    ensures Load(slots + [s]) == Load(slots) + s.batchSize
  {
    assert (slots + [s])[..|slots|] == slots;
  }

  lemma {:induction false} LoadConcat(a: seq<SlotSpec>, b: seq<SlotSpec>)
    ensures Load(a + b) == Load(a) + Load(b)
  {
    if b == [] {
      assert a + b == a;
    } else {
      assert a + b == a + b[..|b| - 1] + [b[|b| - 1]];
      LoadSnoc(a + b[..|b| - 1], b[|b| - 1]);
      LoadConcat(a, b[..|b| - 1]);
    }
  }

  lemma {:induction false} OneMoreSlot(slots: seq<SlotSpec>, s: SlotSpec, k: nat)
    requires 0 <= s.rolloutRank
    ensures RolloutLoad(slots + [s], k) == RolloutLoad(slots, k) + if s.rolloutRank < k then s.batchSize else 0
  {
    if k > 0 {
      OneMoreSlot(slots, s, k - 1);
      SnocRollout(slots, s, k - 1);
      if s.rolloutRank == k - 1 {
        LoadSnoc(OnRollout(slots, k - 1), s);
      } else {
        assert OnRollout(slots, k - 1) + [] == OnRollout(slots, k - 1);
      }
    }
  }

  /** The rollout ranks together carry what all slots carry. */
  lemma {:induction false} RolloutsCarryAll(slots: seq<SlotSpec>, world: nat)
    requires forall s :: s in slots ==> 0 <= s.rolloutRank < world
    ensures RolloutLoad(slots, world) == Load(slots)
  {
    if slots == [] {
      NoLoad(world);
    } else {
      var init, s := slots[..|slots| - 1], slots[|slots| - 1];
      assert slots == init + [s];
      RolloutsCarryAll(init, world);
      OneMoreSlot(init, s, world);
      LoadSnoc(init, s);
    }
  }

  lemma {:induction false} NoLoad(k: nat)
    ensures RolloutLoad([], k) == 0
  {
    if k > 0 {
      NoLoad(k - 1);
    }
  }

  /** All environments of the managers before `m` of rank `r`. */
  function Envs(managers: Managers, r: nat): int
    requires r <= |managers|
  {
    if r == 0 then 0 else Envs(managers, r - 1) + Sum(managers[r - 1])
  }

  lemma {:induction false} BlockLoad(ip: Inputs, r: nat, m: nat, start: nat, k: nat)
    requires At(ip, r, m) && k <= SlotCount(ip, r, m)
    ensures Load(Block(ip, r, m, start, k)) == Sum(SplitSizes(ip, r, m)[..k])
  {
    if k > 0 {
      BlockLoad(ip, r, m, start, k - 1);
      BlockNext(ip, r, m, start, k - 1);
      LoadSnoc(Block(ip, r, m, start, k - 1), SlotAt(ip, r, m, start, k - 1));
      assert SplitSizes(ip, r, m)[..k][..k - 1] == SplitSizes(ip, r, m)[..k - 1];
    }
  }

  lemma ManagerLoad(ip: Inputs, world: nat, r: nat, m: nat, start: nat)
    requires WellShaped(ip, world) && r < |ip.managers| && m < |ip.managers[r]|
    requires CanSplit(ip, r, m)
    ensures Load(Block(ip, r, m, start, SlotCount(ip, r, m))) == ip.managers[r][m]
  {
    ShapedAt(ip, world, r, m);
    SlotFits(ip, world, r, m);
    BlockLoad(ip, r, m, start, SlotCount(ip, r, m));
    assert SplitSizes(ip, r, m)[..|SplitSizes(ip, r, m)|] == SplitSizes(ip, r, m);
    if ip.splits[r][m].None? {
      BalancedSum(ip.managers[r][m], |ip.ranks[r][m]|);
    }
  }

  lemma ManagerStep(ip: Inputs, world: nat, r: nat, m: nat)
    requires WellShaped(ip, world) && r < |ip.managers| && m < |ip.managers[r]| && AllSplittable(ip, r)
    ensures Load(Emitted(ip, r, m + 1)) == Load(Emitted(ip, r, m)) + ip.managers[r][m]
  {
    assert CanSplit(ip, r, m);
    EmittedNext(ip, r, m);
    var before := Emitted(ip, r, m);
    ManagerLoad(ip, world, r, m, |before|);
    LoadConcat(before, Block(ip, r, m, |before|, SlotCount(ip, r, m)));
  }

  lemma Nothing(ip: Inputs)
    ensures Emitted(ip, 0, 0) == []
  {
  }

  lemma {:induction false} EmittedLoad(ip: Inputs, world: nat, r: nat, m: nat)
    requires WellShaped(ip, world) && r <= |ip.managers| && (m > 0 ==> r < |ip.managers| && m <= |ip.managers[r]|)
    requires forall k :: 0 <= k < |ip.managers| ==> AllSplittable(ip, k)
    ensures Load(Emitted(ip, r, m)) == Envs(ip.managers, r) + if m > 0 then Sum(ip.managers[r][..m]) else 0
    decreases r, m
  {
    hide WellShaped, AllSplittable, Emitted;
    Nothing(ip);
    if m > 0 {
      EmittedLoad(ip, world, r, m - 1);
      ManagerStep(ip, world, r, m - 1);
      assert ip.managers[r][..m][..m - 1] == ip.managers[r][..m - 1];
    } else if r > 0 {
      var last := ip.managers[r - 1];
      EmittedLoad(ip, world, r - 1, |last|);
      RowDone(ip, r - 1);
      assert last[..|last|] == last;
    }
  }

  /** The total load over the rollout ranks is the number of environments. */
  lemma LoadConserved(ip: Inputs, world: nat)
    requires WellShaped(ip, world) && forall k :: 0 <= k < |ip.managers| ==> AllSplittable(ip, k)
    ensures RolloutLoad(Emitted(ip, |ip.managers|, 0), world) == Envs(ip.managers, |ip.managers|)
  {
    RolloutsInRange(ip, world, |ip.managers|, 0);
    EmittedLoad(ip, world, |ip.managers|, 0);
    RolloutsCarryAll(Emitted(ip, |ip.managers|, 0), world);
  }

  /** A negative default batch size is not refused: two rollout ranks then get a slot of size -1 each. */
  lemma NegativeSizesAccepted()
    ensures var c := Config(None, None, None, 1, 2, 1, -2);
      && Normal(c) && AllSplittable(InputsOf(c), 0)
      && At(InputsOf(c), 0, 0) && SplitSizes(InputsOf(c), 0, 0) == [-1, -1]
  {
    var c := Config(None, None, None, 1, 2, 1, -2);
    var ip := InputsOf(c);
    RanksShape(c);
    assert At(ip, 0, 0) && ip.managers[0][0] == -2 && |ip.ranks[0][0]| == 2;
    assert Balanced(-2, 2) == [-1, -1];
    assert CanSplit(ip, 0, 0);
  }
}
