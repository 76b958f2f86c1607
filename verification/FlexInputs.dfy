/** The three `_normalize_*` functions of the flex plan: what they accept and what they fill in. */
module FlexInputs {
  import opened Wrappers
  import opened Arithmetic

  type Managers = seq<seq<int>>
  type RankLists = seq<seq<seq<int>>>
  type Splits = seq<seq<Option<seq<int>>>>

  predicate AllPositive(s: seq<int>) {
    forall i :: 0 <= i < |s| ==> s[i] > 0
  }

  // ---------------------------------------------------------------- manager batch sizes

  predicate ManagersOk(custom: Managers, envs: nat) {
    |custom| == envs && forall r :: 0 <= r < envs ==> custom[r] != [] && AllPositive(custom[r])
  }

  /** `_normalize_manager_batch_sizes`: custom sizes are checked, the default is the same for every manager. */
  method NormalizeManagers(custom: Option<Managers>, envs: nat, stages: nat, size: int) returns (r: Outcome<Managers>)
    ensures r.Returned? <==> custom.None? || ManagersOk(custom.value, envs)
    ensures r.Returned? ==> r.value == if custom.Some? then custom.value else seq(envs, _ => seq(stages, _ => size))
  {
    if custom.None? {
      return Returned(seq(envs, _ => seq(stages, _ => size)));
    }
    if |custom.value| != envs {
      return Raised;
    }
    var normalized: Managers := [];
    for rank := 0 to envs
      invariant normalized == custom.value[..rank]
      invariant forall r :: 0 <= r < rank ==> custom.value[r] != [] && AllPositive(custom.value[r])
    {
      var sizes := custom.value[rank];
      if |sizes| == 0 || exists i :: 0 <= i < |sizes| && sizes[i] <= 0 {
        return Raised;
      }
      normalized := normalized + [sizes];
    }
    r := Returned(normalized);
  }

  // ---------------------------------------------------------------- rollout ranks

  predicate InRange(ranks: seq<int>, world: nat) {
    forall i :: 0 <= i < |ranks| ==> 0 <= ranks[i] < world
  }

  predicate RankListOk(ranks: seq<int>, world: nat) {
    ranks != [] && InRange(ranks, world)
  }

  predicate RankRowOk(row: seq<seq<int>>, count: nat, world: nat) {
    |row| == count && forall m :: 0 <= m < count ==> RankListOk(row[m], world)
  }

  predicate RanksOk(custom: RankLists, managers: Managers, world: nat) {
    |custom| == |managers| && forall r :: 0 <= r < |managers| ==> RankRowOk(custom[r], |managers[r]|, world)
  }

  /** Every manager uses all rollout ranks, in order. */
  function DefaultRanks(managers: Managers, world: nat): (ranks: RankLists)
    ensures SameShape(managers, ranks)
    ensures forall r, m :: 0 <= r < |ranks| && 0 <= m < |ranks[r]| ==> |ranks[r][m]| == world
    ensures forall r, m, k :: 0 <= r < |ranks| && 0 <= m < |ranks[r]| && 0 <= k < world ==> ranks[r][m][k] == k
  {
    seq(|managers|, r requires 0 <= r < |managers| => seq(|managers[r]|, _ => seq(world, k => k)))
  }

  /** `_normalize_rollout_ranks`. */
  method NormalizeRanks(custom: Option<RankLists>, managers: Managers, world: nat) returns (r: Outcome<RankLists>)
    ensures r.Returned? <==> custom.None? || RanksOk(custom.value, managers, world)
    ensures r.Returned? ==> r.value == if custom.Some? then custom.value else DefaultRanks(managers, world)
    ensures custom.None? ==> forall rank, m, k ::
      0 <= rank < |r.value| && 0 <= m < |r.value[rank]| && 0 <= k < |r.value[rank][m]| ==>
      |r.value[rank][m]| == world && r.value[rank][m][k] == k
  {
    if custom.None? {
      return Returned(DefaultRanks(managers, world));
    }
    if |custom.value| != |managers| {
      return Raised;
    }
    var normalized: RankLists := [];
    for rank := 0 to |managers|
      invariant normalized == custom.value[..rank]
      invariant forall r :: 0 <= r < rank ==> RankRowOk(custom.value[r], |managers[r]|, world)
    {
      var row := custom.value[rank];
      if |row| != |managers[rank]| {
        return Raised;
      }
      var done: seq<seq<int>> := [];
      for m := 0 to |row|
        invariant done == row[..m]
        invariant forall j :: 0 <= j < m ==> RankListOk(row[j], world)
      {
        if |row[m]| == 0 {
          return Raised;
        }
        for i := 0 to |row[m]|
          invariant InRange(row[m][..i], world)
        {
          if row[m][i] < 0 || row[m][i] >= world {
            return Raised;
          }
        }
        assert row[m][..|row[m]|] == row[m];
        done := done + [row[m]];
      }
      assert done == row;
      normalized := normalized + [done];
    }
    r := Returned(normalized);
  }

  // ---------------------------------------------------------------- split sizes

  predicate SplitOk(split: Option<seq<int>>, size: int, slots: nat) {
    split.Some? ==> |split.value| == slots && AllPositive(split.value) && Sum(split.value) == size
  }

  predicate SplitRowOk(row: seq<Option<seq<int>>>, sizes: seq<int>, ranks: seq<seq<int>>)
    requires |ranks| == |sizes|
  {
    |row| == |sizes| && forall m :: 0 <= m < |sizes| ==> SplitOk(row[m], sizes[m], |ranks[m]|)
  }

  predicate SameShape(managers: Managers, ranks: RankLists) {
    |ranks| == |managers| && forall r :: 0 <= r < |managers| ==> |ranks[r]| == |managers[r]|
  }

  predicate SplitsOk(custom: Splits, managers: Managers, ranks: RankLists)
    requires SameShape(managers, ranks)
  {
    |custom| == |managers| && forall r :: 0 <= r < |managers| ==> SplitRowOk(custom[r], managers[r], ranks[r])
  }

  /** No manager has split sizes of its own. */
  function NoSplits(managers: Managers): (splits: Splits)
    ensures |splits| == |managers| && forall r :: 0 <= r < |managers| ==> |splits[r]| == |managers[r]|
    ensures forall r, m :: 0 <= r < |managers| && 0 <= m < |managers[r]| ==> splits[r][m] == None
  {
    seq(|managers|, r requires 0 <= r < |managers| => seq(|managers[r]|, _ => None))
  }

  /** `_normalize_split_sizes`. */
  method NormalizeSplits(custom: Option<Splits>, managers: Managers, ranks: RankLists) returns (r: Outcome<Splits>)
    requires SameShape(managers, ranks)
    ensures r.Returned? <==> custom.None? || SplitsOk(custom.value, managers, ranks)
    ensures r.Returned? ==> r.value == if custom.Some? then custom.value else NoSplits(managers)
  {
    if custom.None? {
      return Returned(NoSplits(managers));
    }
    if |custom.value| != |managers| {
      return Raised;
    }
    var normalized: Splits := [];
    for rank := 0 to |managers|
      invariant normalized == custom.value[..rank]
      invariant forall r :: 0 <= r < rank ==> SplitRowOk(custom.value[r], managers[r], ranks[r])
    {
      var row := custom.value[rank];
      if |row| != |managers[rank]| {
        return Raised;
      }
      var done: seq<Option<seq<int>>> := [];
      for m := 0 to |row|
        invariant done == row[..m]
        invariant forall j :: 0 <= j < m ==> SplitOk(row[j], managers[rank][j], |ranks[rank][j]|)
      {
        if row[m].Some? {
          var split := row[m].value;
          if |split| != |ranks[rank][m]| || (exists i :: 0 <= i < |split| && split[i] <= 0)
            || Sum(split) != managers[rank][m] {
            return Raised;
          }
        }
        done := done + [row[m]];
      }
      assert done == row;
      normalized := normalized + [done];
    }
    r := Returned(normalized);
  }
}
