/** Backward recursions over the steps of an episode: GAE, scores and the loss mask. */
module Returns {
  import opened Wrappers
  import opened Arithmetic
  import opened Tensors

  /** Multiplication under a name, so that proofs can treat it as given by its laws. */
  function Times(x: real, y: real): real {
    x * y
  }

  lemma TimesLaws(x: real)
    ensures Times(1.0, x) == x && Times(x, 1.0) == x && Times(x, 0.0) == 0.0
  {
  }

  lemma Distribute(g: real, a: real, b: real)
    ensures Times(g, a + b) == Times(g, a) + Times(g, b)
  {
  }

  lemma Associate(g: real, p: real, x: real)
    ensures Times(g, Times(p, x)) == Times(Times(g, p), x)
  {
  }

  function Pow(g: real, n: nat): real {
    if n == 0 then 1.0 else Times(g, Pow(g, n - 1))
  }

  /** No done flag after step `t` up to and including `l`. */
  predicate Alive(dones: seq<bool>, t: nat, l: nat) {
    forall k :: t < k <= l && k < |dones| ==> !dones[k]
  }

  /** The terms of steps `t` to `hi - 1` discounted by `g`, cut off at the first later done. */
  function Discounted(g: real, terms: seq<real>, dones: seq<bool>, t: nat, hi: nat): real
    requires hi <= |terms|
  {
    if hi <= t then 0.0
    else
      Discounted(g, terms, dones, t, hi - 1)
      + if Alive(dones, t, hi - 1) then Times(Pow(g, hi - 1 - t), terms[hi - 1]) else 0.0
  }

  lemma AliveNext(dones: seq<bool>, t: nat, l: nat)
    requires t < l < |dones|
    ensures Alive(dones, t, l) <==> !dones[t + 1] && Alive(dones, t + 1, l)
  {
  }

  lemma PowStep(g: real, n: nat, sum: real, x: real)
    ensures Times(g, sum + Times(Pow(g, n), x)) == Times(g, sum) + Times(Pow(g, n + 1), x)
  {
    hide Times;
    Distribute(g, sum, Times(Pow(g, n), x));
    Associate(g, Pow(g, n), x);
  }

  /** The sum obeys the recursion of the loop. */
  lemma {:induction false} DiscountedStep(g: real, terms: seq<real>, dones: seq<bool>, t: nat, hi: nat)
    requires t < hi <= |terms| && |dones| == |terms| + 1
    ensures Discounted(g, terms, dones, t, hi)
      == terms[t] + if dones[t + 1] then 0.0 else Times(g, Discounted(g, terms, dones, t + 1, hi))
  {
    hide Times;
    if hi == t + 1 {
      TimesLaws(terms[t]);
      TimesLaws(g);
    } else {
      var l := hi - 1;
      DiscountedStep(g, terms, dones, t, l);
      AliveNext(dones, t, l);
      hide Alive;
      TimesLaws(g);
      PowStep(g, l - t - 1, Discounted(g, terms, dones, t + 1, l), terms[l]);
    }
  }

  // ---------------------------------------------------------------- GAE

  /** The temporal-difference errors of one environment. */
  function Deltas(rewards: seq<real>, values: seq<real>, dones: seq<bool>, gamma: real): (r: seq<real>)
    requires |values| == |dones| == |rewards| + 1
    ensures |r| == |rewards|
  {
    seq(|rewards|, t requires 0 <= t < |rewards| =>
      rewards[t] + (if dones[t + 1] then 0.0 else Times(gamma, values[t + 1])) - values[t])
  }

  /** With a critic: the discounted sum of the errors at `gamma * gaeLambda`; without: the sum of the rewards. */
  function Advantage(rewards: seq<real>, values: Option<seq<real>>, dones: seq<bool>, gamma: real, gaeLambda: real,
      t: nat): real
    requires |dones| == |rewards| + 1 && (values.Some? ==> |values.value| == |dones|)
  {
    match values
    case Some(v) => Discounted(Times(gamma, gaeLambda), Deltas(rewards, v, dones, gamma), dones, t, |rewards|)
    case None => Discounted(1.0, rewards, dones, t, |rewards|)
  }

  function ColumnOf<T>(m: Matrix<T>, rows: nat, columns: nat, j: nat): (r: seq<T>)
    requires IsMatrix(m, rows, columns) && j < columns
    ensures |r| == rows
  {
    seq(rows, i requires 0 <= i < rows => m[i][j])
  }

  /** The advantage of environment `j` at step `t`. */
  function AdvantageAt(rewards: Matrix<real>, values: Option<Matrix<real>>, dones: Matrix<bool>, steps: nat, envs: nat,
      gamma: real, gaeLambda: real, t: nat, j: nat): real
    requires IsMatrix(rewards, steps, envs) && IsMatrix(dones, steps + 1, envs)
    requires values.Some? ==> IsMatrix(values.value, steps + 1, envs)
    requires j < envs
  {
    Advantage(ColumnOf(rewards, steps, envs, j),
      if values.None? then None else Some(ColumnOf(values.value, steps + 1, envs, j)),
      ColumnOf(dones, steps + 1, envs, j), gamma, gaeLambda, t)
  }

  lemma AdvantageStep(rewards: seq<real>, values: Option<seq<real>>, dones: seq<bool>, gamma: real, gaeLambda: real,
      t: nat)
    requires |dones| == |rewards| + 1 && (values.Some? ==> |values.value| == |dones|) && t < |rewards|
    ensures values.Some? ==>
      Advantage(rewards, values, dones, gamma, gaeLambda, t) ==
      rewards[t] + (if dones[t + 1] then 0.0 else Times(gamma, values.value[t + 1])) - values.value[t]
      + if dones[t + 1] then 0.0
        else Times(Times(gamma, gaeLambda), Advantage(rewards, values, dones, gamma, gaeLambda, t + 1))
    ensures values.None? ==>
      Advantage(rewards, values, dones, gamma, gaeLambda, t) ==
      rewards[t] + if dones[t + 1] then 0.0 else Advantage(rewards, values, dones, gamma, gaeLambda, t + 1)
  {
    hide Times, Discounted;
    match values
    case Some(v) => DiscountedStep(Times(gamma, gaeLambda), Deltas(rewards, v, dones, gamma), dones, t, |rewards|);
    case None =>
      DiscountedStep(1.0, rewards, dones, t, |rewards|);
      TimesLaws(Discounted(1.0, rewards, dones, t + 1, |rewards|));
  }

  lemma AdvantageEnd(rewards: seq<real>, values: Option<seq<real>>, dones: seq<bool>, gamma: real, gaeLambda: real)
    requires |dones| == |rewards| + 1 && (values.Some? ==> |values.value| == |dones|)
    ensures Advantage(rewards, values, dones, gamma, gaeLambda, |rewards|) == 0.0
  {
  }

  /** One turn of the loop for one environment. */
  function GaeStep(reward: real, value: Option<(real, real)>, done: bool, gamma: real, gaeLambda: real,
      gae: real): real {
    match value
    case Some((here, next)) =>
      reward + (if done then 0.0 else Times(gamma, next)) - here
      + if done then 0.0 else Times(Times(gamma, gaeLambda), gae)
    case None => reward + if done then 0.0 else gae
  }

  lemma GaeStepIsAdvantage(rewards: Matrix<real>, values: Option<Matrix<real>>, dones: Matrix<bool>, steps: nat,
      envs: nat, gamma: real, gaeLambda: real, t: nat, j: nat)
    requires IsMatrix(rewards, steps, envs) && IsMatrix(dones, steps + 1, envs)
    requires values.Some? ==> IsMatrix(values.value, steps + 1, envs)
    requires j < envs && t < steps
    ensures GaeStep(rewards[t][j], if values.None? then None else Some((values.value[t][j], values.value[t + 1][j])),
      dones[t + 1][j], gamma, gaeLambda,
        AdvantageAt(rewards, values, dones, steps, envs, gamma, gaeLambda, t + 1, j))
      == AdvantageAt(rewards, values, dones, steps, envs, gamma, gaeLambda, t, j)
  {
    var v := if values.None? then None else Some(ColumnOf(values.value, steps + 1, envs, j));
    AdvantageStep(ColumnOf(rewards, steps, envs, j), v, ColumnOf(dones, steps + 1, envs, j), gamma, gaeLambda, t);
    hide Advantage;
  }

  /** The loop of `compute_gae_advantages_and_returns`, before normalisation. */
  method ComputeGae(rewards: Matrix<real>, values: Option<Matrix<real>>, dones: Matrix<bool>, steps: nat, envs: nat,
      gamma: real, gaeLambda: real)
    returns (advantages: Matrix<real>, stepReturns: Matrix<real>)
    requires IsMatrix(rewards, steps, envs) && IsMatrix(dones, steps + 1, envs)
    requires values.Some? ==> IsMatrix(values.value, steps + 1, envs)
    ensures IsMatrix(advantages, steps, envs) && IsMatrix(stepReturns, steps, envs)
    ensures forall t, j :: 0 <= t < steps && 0 <= j < envs ==>
      advantages[t][j] == AdvantageAt(rewards, values, dones, steps, envs, gamma, gaeLambda, t, j)
    ensures forall t, j :: 0 <= t < steps && 0 <= j < envs ==>
      stepReturns[t][j] == advantages[t][j] + if values.Some? then values.value[t][j] else 0.0
  {
    stepReturns := seq(steps, _ => seq(envs, _ => 0.0));
    var gae := seq(envs, _ => 0.0);
    forall j | 0 <= j < envs
      ensures AdvantageAt(rewards, values, dones, steps, envs, gamma, gaeLambda, steps, j) == 0.0
    {
      AdvantageEnd(ColumnOf(rewards, steps, envs, j),
        if values.None? then None else Some(ColumnOf(values.value, steps + 1, envs, j)),
        ColumnOf(dones, steps + 1, envs, j), gamma, gaeLambda);
    }
    hide AdvantageAt;
    var step := steps;
    while step > 0
      invariant 0 <= step <= steps && |gae| == envs && IsMatrix(stepReturns, steps, envs)
      invariant forall j :: 0 <= j < envs ==>
        gae[j] == AdvantageAt(rewards, values, dones, steps, envs, gamma, gaeLambda, step, j)
      invariant forall t, j :: step <= t < steps && 0 <= j < envs ==>
        stepReturns[t][j] == AdvantageAt(rewards, values, dones, steps, envs, gamma, gaeLambda, t, j)
          + if values.Some? then values.value[t][j] else 0.0
    {
      step := step - 1;
      forall j | 0 <= j < envs
        ensures GaeStep(rewards[step][j],
          if values.None? then None else Some((values.value[step][j], values.value[step + 1][j])),
          dones[step + 1][j], gamma, gaeLambda, gae[j])
          == AdvantageAt(rewards, values, dones, steps, envs, gamma, gaeLambda, step, j)
      {
        GaeStepIsAdvantage(rewards, values, dones, steps, envs, gamma, gaeLambda, step, j);
      }
      hide GaeStep;
      gae := seq(envs, j requires 0 <= j < envs =>
        GaeStep(rewards[step][j],
          if values.None? then None else Some((values.value[step][j], values.value[step + 1][j])),
          dones[step + 1][j], gamma, gaeLambda, gae[j]));
      var row := if values.None? then gae else seq(envs, j requires 0 <= j < envs => gae[j] + values.value[step][j]);
      stepReturns := stepReturns[step := row];
    }
    advantages := if values.None? then stepReturns else
      seq(steps,
        t requires 0 <= t < steps => seq(envs, j requires 0 <= j < envs => stepReturns[t][j] - values.value[t][j]));
  }

  /**
   * With `gaeLambda = 1` the return telescopes: discounted rewards up to the first later done, plus the last value if
   * none came.
   */
  lemma {:induction false} ReturnTelescopes(rewards: seq<real>, values: seq<real>, dones: seq<bool>, gamma: real,
      t: nat)
    requires |values| == |dones| == |rewards| + 1 && t <= |rewards|
    ensures Advantage(rewards, Some(values), dones, gamma, 1.0, t) + values[t] ==
      Discounted(gamma, rewards, dones, t, |rewards|)
      + if Alive(dones, t, |rewards|) then Times(Pow(gamma, |rewards| - t), values[|rewards|]) else 0.0
    decreases |rewards| - t
  {
    hide Times;
    var last := |rewards|;
    if t == last {
      TimesLaws(values[last]);
    } else {
      ReturnTelescopes(rewards, values, dones, gamma, t + 1);
      AdvantageStep(rewards, Some(values), dones, gamma, 1.0, t);
      DiscountedStep(gamma, rewards, dones, t, last);
      AliveNext(dones, t, last);
      TimesLaws(gamma);
      var a := Advantage(rewards, Some(values), dones, gamma, 1.0, t + 1);
      var d := Discounted(gamma, rewards, dones, t + 1, last);
      var b := if Alive(dones, t + 1, last) then Times(Pow(gamma, last - t - 1), values[last]) else 0.0;
      hide Advantage, Discounted, Alive;
      Distribute(gamma, a, values[t + 1]);
      Distribute(gamma, d, b);
      Associate(gamma, Pow(gamma, last - t - 1), values[last]);
    }
  }

  // ---------------------------------------------------------------- scores and the loss mask

  /** The rewards up to the first done flag after step 0. */
  function Score(rewards: seq<real>, dones: seq<bool>): real
    requires |dones| == |rewards| + 1
  {
    ScoreFrom(rewards, dones, 0)
  }

  function ScoreFrom(rewards: seq<real>, dones: seq<bool>, t: nat): real
    requires |dones| == |rewards| + 1
  {
    Discounted(1.0, rewards, dones, t, |rewards|)
  }

  /** `scores.reshape(-1, group_size)`. */
  function Grouped(scores: seq<real>, groupSize: nat): Outcome<Matrix<real>> {
    if groupSize == 0 || |scores| % groupSize != 0 then Raised
    else Returned(Rows(scores, |scores| / groupSize, groupSize))
  }

  function Rows(scores: seq<real>, count: nat, groupSize: nat): (m: Matrix<real>)
    requires |scores| >= Product(count, groupSize)
    ensures IsMatrix(m, count, groupSize)
  {
    ProductNext(count, groupSize);
    if count == 0 then []
    else Rows(scores, count - 1, groupSize) + [scores[Product(count - 1, groupSize)..Product(count, groupSize)]]
  }

  lemma RowsNext(scores: seq<real>, count: nat, groupSize: nat)
    requires |scores| >= Product(count, groupSize) && count > 0
    ensures Product(count, groupSize) == Product(count - 1, groupSize) + groupSize
    ensures Rows(scores, count, groupSize)
      == Rows(scores, count - 1, groupSize) + [scores[Product(count - 1, groupSize)..Product(count, groupSize)]]
  {
    ProductNext(count, groupSize);
    hide Product;
  }

  lemma {:induction false} RowsAt(scores: seq<real>, count: nat, groupSize: nat, q: nat, r: nat)
    requires |scores| >= Product(count, groupSize) && q < count && r < groupSize
    ensures Product(q, groupSize) + r < Product(count, groupSize)
    ensures Rows(scores, count, groupSize)[q][r] == scores[Product(q, groupSize) + r]
    decreases count
  {
    RowsNext(scores, count, groupSize);
    hide *;
    if q < count - 1 {
      RowsAt(scores, count - 1, groupSize, q, r);
    }
  }

  function ScoreOfEnv(rewards: Matrix<real>, dones: Matrix<bool>, steps: nat, envs: nat, j: nat): real
    requires IsMatrix(rewards, steps, envs) && IsMatrix(dones, steps + 1, envs) && j < envs
  {
    Score(ColumnOf(rewards, steps, envs, j), ColumnOf(dones, steps + 1, envs, j))
  }

  function AllScores(rewards: Matrix<real>, dones: Matrix<bool>, steps: nat, envs: nat): (r: seq<real>)
    requires IsMatrix(rewards, steps, envs) && IsMatrix(dones, steps + 1, envs)
    ensures |r| == envs
  {
    seq(envs, j requires 0 <= j < envs => ScoreOfEnv(rewards, dones, steps, envs, j))
  }

  /** `calculate_scores`. */
  method CalculateScores(rewards: Matrix<real>, dones: Matrix<bool>, steps: nat, envs: nat, groupSize: nat)
    returns (r: Outcome<Matrix<real>>)
    requires IsMatrix(rewards, steps, envs) && IsMatrix(dones, steps + 1, envs)
    ensures r == Grouped(AllScores(rewards, dones, steps, envs), groupSize)
  {
    var scores := ScoreLoop(rewards, dones, steps, envs);
    r := Grouped(scores, groupSize);
  }

  /**
   * The groups exist iff the group size divides the environments; entry `i` of group `q` is environment `q * group_size
   * + i`.
   */
  lemma GroupsHoldScores(rewards: Matrix<real>, dones: Matrix<bool>, steps: nat, envs: nat, groupSize: nat, q: nat,
      i: nat)
    requires IsMatrix(rewards, steps, envs) && IsMatrix(dones, steps + 1, envs)
    ensures var r := Grouped(AllScores(rewards, dones, steps, envs), groupSize);
      && (r.Returned? <==> groupSize > 0 && envs % groupSize == 0)
      && (r.Returned? && q < envs / groupSize && i < groupSize ==>
            && IsMatrix(r.value, envs / groupSize, groupSize) && Product(q, groupSize) + i < envs
            && r.value[q][i] == ScoreOfEnv(rewards, dones, steps, envs, Product(q, groupSize) + i))
  {
    if groupSize > 0 && envs % groupSize == 0 {
      DividesProduct(groupSize, envs);
      if q < envs / groupSize && i < groupSize {
        RowsAt(AllScores(rewards, dones, steps, envs), envs / groupSize, groupSize, q, i);
      }
      hide Rows, Product, ScoreOfEnv;
    }
  }

  /** The loop of `calculate_scores`. */
  method ScoreLoop(rewards: Matrix<real>, dones: Matrix<bool>, steps: nat, envs: nat) returns (scores: seq<real>)
    requires IsMatrix(rewards, steps, envs) && IsMatrix(dones, steps + 1, envs)
    ensures scores == AllScores(rewards, dones, steps, envs)
  {
    scores := seq(envs, _ => 0.0);
    var step := steps;
    while step > 0
      invariant 0 <= step <= steps && |scores| == envs
      invariant forall j :: 0 <= j < envs ==>
        scores[j] == ScoreFrom(ColumnOf(rewards, steps, envs, j), ColumnOf(dones, steps + 1, envs, j), step)
    {
      step := step - 1;
      forall j | 0 <= j < envs
        ensures (if dones[step + 1][j] then 0.0 else scores[j]) + rewards[step][j]
          == ScoreFrom(ColumnOf(rewards, steps, envs, j), ColumnOf(dones, steps + 1, envs, j), step)
      {
        DiscountedStep(1.0, ColumnOf(rewards, steps, envs, j), ColumnOf(dones, steps + 1, envs, j), step, steps);
        TimesLaws(Discounted(1.0, ColumnOf(rewards, steps, envs, j), ColumnOf(dones, steps + 1, envs, j), step + 1,
          steps));
      }
      hide ScoreFrom;
      scores := seq(envs, j requires 0 <= j < envs => if dones[step + 1][j] then 0.0 else scores[j]);
      scores := seq(envs, j requires 0 <= j < envs => scores[j] + rewards[step][j]);
    }
  }

  /** `cumsum` of the done flags. */
  function Cumulated(dones: seq<bool>, t: nat): nat
    requires t < |dones|
  {
    (if t == 0 then 0 else Cumulated(dones, t - 1)) + if dones[t] then 1 else 0
  }

  lemma {:induction false} CumulatedZero(dones: seq<bool>, t: nat)
    requires t < |dones|
    ensures Cumulated(dones, t) == 0 <==> !dones[0] && Alive(dones, 0, t)
  {
    if t > 0 {
      CumulatedZero(dones, t - 1);
    }
  }

  /** The mask of one environment: no done flag so far. */
  function MaskOf(dones: seq<bool>): (r: seq<bool>)
    requires |dones| > 0
    ensures |r| == |dones| - 1
  {
    seq(|dones| - 1, t requires 0 <= t < |dones| - 1 => Cumulated(dones, t) == 0)
  }

  function MaskedSum(mask: seq<bool>, rewards: seq<real>, hi: nat): real
    requires |mask| == |rewards| && hi <= |rewards|
  {
    if hi == 0 then 0.0 else MaskedSum(mask, rewards, hi - 1) + if mask[hi - 1] then rewards[hi - 1] else 0.0
  }

  lemma {:induction false} OneToAny(n: nat)
    ensures Pow(1.0, n) == 1.0
  {
    TimesLaws(1.0);
    if n > 0 {
      OneToAny(n - 1);
    }
  }

  /** The two computations agree when the first flag is false; when it is true, the mask hides every reward. */
  lemma {:induction false} MaskedSumIsScore(rewards: seq<real>, dones: seq<bool>, hi: nat)
    requires |dones| == |rewards| + 1 && hi <= |rewards|
    ensures MaskedSum(MaskOf(dones), rewards, hi) == if dones[0] then 0.0 else Discounted(1.0, rewards, dones, 0, hi)
  {
    if hi > 0 {
      MaskedSumIsScore(rewards, dones, hi - 1);
      CumulatedZero(dones, hi - 1);
      OneToAny(hi - 1);
      TimesLaws(rewards[hi - 1]);
    }
  }

  /** A done flag before the first step: the score counts its reward, the mask does not. */
  lemma FirstFlagSplitsThem()
    ensures Score([1.0], [true, false]) == 1.0 && MaskedSum(MaskOf([true, false]), [1.0], 1) == 0.0
  {
    var rewards, dones := [1.0], [true, false];
    MaskedSumIsScore(rewards, dones, 1);
    DiscountedStep(1.0, rewards, dones, 0, 1);
    TimesLaws(0.0);
    TimesLaws(1.0);
    assert Discounted(1.0, rewards, dones, 1, 1) == 0.0;
  }

  /** How many leading flags are false. */
  function FirstDone(dones: seq<bool>): nat {
    if dones == [] || dones[0] then 0 else 1 + FirstDone(dones[1..])
  }

  lemma {:induction false} FirstDoneMeans(dones: seq<bool>)
    ensures FirstDone(dones) <= |dones|
    ensures forall k :: 0 <= k < FirstDone(dones) ==> !dones[k]
    ensures FirstDone(dones) < |dones| ==> dones[FirstDone(dones)]
  {
    if dones != [] && !dones[0] {
      FirstDoneMeans(dones[1..]);
    }
  }

  /** The mask keeps exactly the steps before the first done flag. */
  lemma MaskIsPrefix(dones: seq<bool>, t: nat)
    requires t + 1 < |dones|
    ensures MaskOf(dones)[t] <==> t < FirstDone(dones)
  {
    CumulatedZero(dones, t);
    FirstDoneMeans(dones);
  }

  function Kept(mask: seq<bool>): nat {
    if mask == [] then 0 else Kept(mask[..|mask| - 1]) + if mask[|mask| - 1] then 1 else 0
  }

  /** The mask sum of an environment is the number of steps before its first done flag. */
  lemma MaskSumIsEpisodeLength(dones: seq<bool>)
    requires dones != []
    ensures Kept(MaskOf(dones)) == if FirstDone(dones) < |dones| then FirstDone(dones) else |dones| - 1
  {
    KeptPrefix(dones, |dones| - 1);
    assert MaskOf(dones)[..|dones| - 1] == MaskOf(dones);
    FirstDoneMeans(dones);
  }

  lemma {:induction false} KeptPrefix(dones: seq<bool>, n: nat)
    requires n < |dones|
    ensures Kept(MaskOf(dones)[..n]) == if FirstDone(dones) < n then FirstDone(dones) else n
  {
    if n > 0 {
      KeptPrefix(dones, n - 1);
      MaskIsPrefix(dones, n - 1);
      assert MaskOf(dones)[..n][..n - 1] == MaskOf(dones)[..n - 1];
    }
  }

  // ---------------------------------------------------------------- from the rollout tensors

  /** The flags of `chunks * size + 1` steps, of the `(chunks + 1) * size` that were recorded. */
  function FlatDones(dones: Cube<bool>, chunks: nat, envs: nat, size: nat): (r: Matrix<bool>)
    requires IsCube(dones, chunks + 1, envs, size) && size > 0
    ensures IsMatrix(r, Product(chunks, size) + 1, envs)
  {
    ProductNext(chunks + 1, size);
    Flatten(dones, envs, size)[size - 1..]
  }

  /** The flag behind step `k` of chunk `i` is the one recorded for that step in the next chunk of flags. */
  lemma FlagBehindStep(dones: Cube<bool>, chunks: nat, envs: nat, size: nat, i: nat, j: nat, k: nat)
    requires IsCube(dones, chunks + 1, envs, size) && i < chunks && j < envs && k < size
    ensures Product(i, size) + k < Product(chunks, size)
    ensures FlatDones(dones, chunks, envs, size)[Product(i, size) + k + 1][j] == dones[i + 1][j][k]
  {
    FlattenAt(dones, envs, size, i + 1, j, k);
    ProductNext(i + 1, size);
    ProductNext(chunks + 1, size);
    hide Flatten, Product;
  }

  /** `compute_loss_mask`. */
  function LossMask(dones: Cube<bool>, chunks: nat, envs: nat, size: nat): (r: Cube<bool>)
    requires IsCube(dones, chunks + 1, envs, size) && size > 0
    ensures IsCube(r, chunks, envs, size)
  {
    Unflatten(FlatMask(FlatDones(dones, chunks, envs, size), Product(chunks, size), envs), chunks, envs, size)
  }

  function FlatMask(dones: Matrix<bool>, steps: nat, envs: nat): (r: Matrix<bool>)
    requires IsMatrix(dones, steps + 1, envs)
    ensures IsMatrix(r, steps, envs)
  {
    seq(steps, t requires 0 <= t < steps =>
      seq(envs, j requires 0 <= j < envs => MaskOf(ColumnOf(dones, steps + 1, envs, j))[t]))
  }

  lemma FlatMaskColumn(dones: Matrix<bool>, steps: nat, envs: nat, j: nat)
    requires IsMatrix(dones, steps + 1, envs) && j < envs
    ensures ColumnOf(FlatMask(dones, steps, envs), steps, envs, j) == MaskOf(ColumnOf(dones, steps + 1, envs, j))
  {
  }

  /** The score of an environment is the sum of its rewards under its loss mask, unless its very first flag is set. */
  lemma ScoreIsMaskedReward(rewards: Cube<real>, dones: Cube<bool>, chunks: nat, envs: nat, size: nat, j: nat)
    requires IsCube(rewards, chunks, envs, size) && IsCube(dones, chunks + 1, envs, size) && size > 0 && j < envs
    ensures var steps := Product(chunks, size);
      var r, d := ColumnOf(Flatten(rewards, envs, size), steps, envs, j),
        ColumnOf(FlatDones(dones, chunks, envs, size), steps + 1, envs, j);
      var m := ColumnOf(Flatten(LossMask(dones, chunks, envs, size), envs, size), steps, envs, j);
      && d[0] == dones[0][j][size - 1]
      && MaskedSum(m, r, steps) == if d[0] then 0.0 else Score(r, d)
  {
    hide Flatten, FlatDones, LossMask, MaskOf, ColumnOf, Discounted, MaskedSum, Product;
    LossMaskColumn(dones, chunks, envs, size, j);
    FirstFlag(dones, chunks, envs, size, j);
    FlattenShape(rewards, chunks, envs, size);
    var steps := Product(chunks, size);
    MaskedSumIsScore(ColumnOf(Flatten(rewards, envs, size), steps, envs, j),
      ColumnOf(FlatDones(dones, chunks, envs, size), steps + 1, envs, j), steps);
  }

  lemma FlattenShape<T>(c: Cube<T>, chunks: nat, envs: nat, size: nat)
    requires IsCube(c, chunks, envs, size)
    ensures IsMatrix(Flatten(c, envs, size), Product(chunks, size), envs)
  {
  }

  lemma LossMaskColumn(dones: Cube<bool>, chunks: nat, envs: nat, size: nat, j: nat)
    requires IsCube(dones, chunks + 1, envs, size) && size > 0 && j < envs
    ensures IsMatrix(Flatten(LossMask(dones, chunks, envs, size), envs, size), Product(chunks, size), envs)
    ensures ColumnOf(Flatten(LossMask(dones, chunks, envs, size), envs, size), Product(chunks, size), envs, j)
      == MaskOf(ColumnOf(FlatDones(dones, chunks, envs, size), Product(chunks, size) + 1, envs, j))
  {
    hide Flatten, Unflatten, FlatMask, FlatDones, MaskOf, ColumnOf, Product;
    var steps := Product(chunks, size);
    var flat := FlatDones(dones, chunks, envs, size);
    FlattenUnflatten(FlatMask(flat, steps, envs), chunks, envs, size);
    FlatMaskColumn(flat, steps, envs, j);
  }

  lemma FirstFlag(dones: Cube<bool>, chunks: nat, envs: nat, size: nat, j: nat)
    requires IsCube(dones, chunks + 1, envs, size) && size > 0 && j < envs
    ensures ColumnOf(FlatDones(dones, chunks, envs, size), Product(chunks, size) + 1, envs, j)[0]
      == dones[0][j][size - 1]
  {
    FlattenAt(dones, envs, size, 0, j, size - 1);
    ProductNext(0, size);
    hide Flatten, Product;
  }

  // ---------------------------------------------------------------- GAE from the rollout tensors

  /** The values of `chunks * size + 1` steps, of the `(chunks + 1) * size` that were recorded. */
  function FlatValues(values: Cube<real>, chunks: nat, envs: nat, size: nat): (r: Matrix<real>)
    requires IsCube(values, chunks + 1, envs, size) && size > 0
    ensures IsMatrix(r, Product(chunks, size) + 1, envs)
  {
    ProductNext(chunks + 1, size);
    Flatten(values, envs, size)[..Product(chunks, size) + 1]
  }

  /**
   * The value recorded after step `k` of chunk `i`: that of the next step, which may be the first of the next chunk.
   */
  function NextValue(values: Cube<real>, chunks: nat, envs: nat, size: nat, i: nat, j: nat, k: nat): real
    requires IsCube(values, chunks + 1, envs, size) && i < chunks && j < envs && k < size
  {
    if k + 1 < size then values[i][j][k + 1] else values[i + 1][j][0]
  }

  lemma ValueOfStep(values: Cube<real>, chunks: nat, envs: nat, size: nat, i: nat, j: nat, k: nat)
    requires IsCube(values, chunks + 1, envs, size) && i < chunks && j < envs && k < size
    ensures Product(i, size) + k < Product(chunks, size)
    ensures FlatValues(values, chunks, envs, size)[Product(i, size) + k][j] == values[i][j][k]
    ensures FlatValues(values, chunks, envs, size)[Product(i, size) + k + 1][j]
      == NextValue(values, chunks, envs, size, i, j, k)
  {
    FlattenAt(values, envs, size, i, j, k);
    ProductNext(i + 1, size);
    ProductMonotone(i + 1, chunks, size);
    if k + 1 < size {
      FlattenAt(values, envs, size, i, j, k + 1);
    } else {
      FlattenAt(values, envs, size, i + 1, j, 0);
    }
    hide Flatten, Product;
  }

  /** The temporal-difference error of step `k` of chunk `i`, read off the recorded tensors. */
  function TdError(rewards: Cube<real>, values: Cube<real>, dones: Cube<bool>, chunks: nat, envs: nat, size: nat,
      gamma: real, i: nat, j: nat, k: nat): real
    requires IsCube(rewards, chunks, envs, size) && IsCube(values, chunks + 1, envs, size)
      && IsCube(dones, chunks + 1, envs, size)
    requires i < chunks && j < envs && k < size
  {
    rewards[i][j][k]
      + (if dones[i + 1][j][k] then 0.0 else Times(gamma, NextValue(values, chunks, envs, size, i, j, k)))
      - values[i][j][k]
  }

  /** The advantage of step `k` of chunk `i` in the flattened tensors. */
  function RecordedAdvantage(rewards: Cube<real>, values: Cube<real>, dones: Cube<bool>, chunks: nat, envs: nat,
      size: nat, gamma: real, gaeLambda: real, t: nat, j: nat): real
    requires IsCube(rewards, chunks, envs, size) && IsCube(values, chunks + 1, envs, size)
      && IsCube(dones, chunks + 1, envs, size)
    requires j < envs && size > 0
  {
    AdvantageAt(Flatten(rewards, envs, size), Some(FlatValues(values, chunks, envs, size)),
      FlatDones(dones, chunks, envs, size),
      Product(chunks, size), envs, gamma, gaeLambda, t, j)
  }

  function RewardColumn(rewards: Cube<real>, chunks: nat, envs: nat, size: nat, j: nat): (r: seq<real>)
    requires IsCube(rewards, chunks, envs, size) && j < envs && size > 0
    ensures |r| == Product(chunks, size)
  {
    ColumnOf(Flatten(rewards, envs, size), Product(chunks, size), envs, j)
  }

  function ValueColumn(values: Cube<real>, chunks: nat, envs: nat, size: nat, j: nat): (r: seq<real>)
    requires IsCube(values, chunks + 1, envs, size) && j < envs && size > 0
    ensures |r| == Product(chunks, size) + 1
  {
    ColumnOf(FlatValues(values, chunks, envs, size), Product(chunks, size) + 1, envs, j)
  }

  function DoneColumn(dones: Cube<bool>, chunks: nat, envs: nat, size: nat, j: nat): (r: seq<bool>)
    requires IsCube(dones, chunks + 1, envs, size) && j < envs && size > 0
    ensures |r| == Product(chunks, size) + 1
  {
    ColumnOf(FlatDones(dones, chunks, envs, size), Product(chunks, size) + 1, envs, j)
  }

  /** One environment's column of the flattened tensors, read off the recorded ones. */
  lemma RecordedColumns(rewards: Cube<real>, values: Cube<real>, dones: Cube<bool>, chunks: nat, envs: nat, size: nat,
      i: nat, j: nat, k: nat)
    requires IsCube(rewards, chunks, envs, size) && IsCube(values, chunks + 1, envs, size)
      && IsCube(dones, chunks + 1, envs, size)
    requires i < chunks && j < envs && k < size
    ensures Product(i, size) + k < Product(chunks, size)
    ensures RewardColumn(rewards, chunks, envs, size, j)[Product(i, size) + k] == rewards[i][j][k]
    ensures ValueColumn(values, chunks, envs, size, j)[Product(i, size) + k] == values[i][j][k]
    ensures ValueColumn(values, chunks, envs, size, j)[Product(i, size) + k + 1]
      == NextValue(values, chunks, envs, size, i, j, k)
    ensures DoneColumn(dones, chunks, envs, size, j)[Product(i, size) + k + 1] == dones[i + 1][j][k]
  {
    ValueOfStep(values, chunks, envs, size, i, j, k);
    FlagBehindStep(dones, chunks, envs, size, i, j, k);
    FlattenAt(rewards, envs, size, i, j, k);
    hide Flatten, FlatValues, FlatDones, NextValue, Product, IsCube, IsMatrix;
  }

  lemma RecordedIsColumns(rewards: Cube<real>, values: Cube<real>, dones: Cube<bool>, chunks: nat, envs: nat, size: nat,
      gamma: real, gaeLambda: real, t: nat, j: nat)
    requires IsCube(rewards, chunks, envs, size) && IsCube(values, chunks + 1, envs, size)
      && IsCube(dones, chunks + 1, envs, size)
    requires j < envs && size > 0
    ensures RecordedAdvantage(rewards, values, dones, chunks, envs, size, gamma, gaeLambda, t, j)
      == Advantage(RewardColumn(rewards, chunks, envs, size, j), Some(ValueColumn(values, chunks, envs, size, j)),
        DoneColumn(dones, chunks, envs, size, j), gamma, gaeLambda, t)
  {
    hide Flatten, FlatValues, FlatDones, Product, IsCube, IsMatrix, Advantage, ColumnOf;
  }

  lemma ErrorMeans(rewards: Cube<real>, values: Cube<real>, dones: Cube<bool>, chunks: nat, envs: nat, size: nat,
      gamma: real, i: nat, j: nat, k: nat)
    requires IsCube(rewards, chunks, envs, size) && IsCube(values, chunks + 1, envs, size)
      && IsCube(dones, chunks + 1, envs, size)
    requires i < chunks && j < envs && k < size
    ensures TdError(rewards, values, dones, chunks, envs, size, gamma, i, j, k)
      == rewards[i][j][k]
        + (if dones[i + 1][j][k] then 0.0 else Times(gamma, NextValue(values, chunks, envs, size, i, j, k)))
        - values[i][j][k]
  {
    hide Times, NextValue, IsCube;
  }

  /**
   * From the recorded tensors: the advantage of a step is its own error, plus the discounted advantage of the next step
   * unless the flag recorded for the step is set; behind the last step it is zero.
   */
  lemma RecordedAdvantageStep(rewards: Cube<real>, values: Cube<real>, dones: Cube<bool>, chunks: nat, envs: nat,
      size: nat, gamma: real, gaeLambda: real, i: nat, j: nat, k: nat)
    requires IsCube(rewards, chunks, envs, size) && IsCube(values, chunks + 1, envs, size)
      && IsCube(dones, chunks + 1, envs, size)
    requires i < chunks && j < envs && k < size
    ensures var t := Product(i, size) + k;
      RecordedAdvantage(rewards, values, dones, chunks, envs, size, gamma, gaeLambda, t, j)
      == TdError(rewards, values, dones, chunks, envs, size, gamma, i, j, k)
         + if dones[i + 1][j][k] then 0.0
           else Times(Times(gamma, gaeLambda),
             RecordedAdvantage(rewards, values, dones, chunks, envs, size, gamma, gaeLambda, t + 1, j))
    ensures RecordedAdvantage(rewards, values, dones, chunks, envs, size, gamma, gaeLambda, Product(chunks, size), j)
      == 0.0
  {
    hide *;
    var t := Product(i, size) + k;
    RecordedColumns(rewards, values, dones, chunks, envs, size, i, j, k);
    var rj, vj, dj := RewardColumn(rewards, chunks, envs, size, j), ValueColumn(values, chunks, envs, size, j),
      DoneColumn(dones, chunks, envs, size, j);
    AdvantageStep(rj, Some(vj), dj, gamma, gaeLambda, t);
    AdvantageEnd(rj, Some(vj), dj, gamma, gaeLambda);
    RecordedIsColumns(rewards, values, dones, chunks, envs, size, gamma, gaeLambda, t, j);
    RecordedIsColumns(rewards, values, dones, chunks, envs, size, gamma, gaeLambda, t + 1, j);
    RecordedIsColumns(rewards, values, dones, chunks, envs, size, gamma, gaeLambda, Product(chunks, size), j);
    ErrorMeans(rewards, values, dones, chunks, envs, size, gamma, i, j, k);
  }

  /** Preprocessing, the GAE loop and postprocessing of an embodied batch with action-level rewards. */
  method EmbodiedGae(rewards: Cube<real>, values: Cube<real>, dones: Cube<bool>, chunks: nat, envs: nat, size: nat,
      gamma: real, gaeLambda: real)
    returns (advantages: Cube<real>, stepReturns: Cube<real>)
    requires IsCube(rewards, chunks, envs, size) && IsCube(values, chunks + 1, envs, size)
      && IsCube(dones, chunks + 1, envs, size)
    requires size > 0
    ensures IsCube(advantages, chunks, envs, size) && IsCube(stepReturns, chunks, envs, size)
    ensures forall i: nat, j: nat, k: nat :: i < chunks && j < envs && k < size ==>
      && advantages[i][j][k]
        == RecordedAdvantage(rewards, values, dones, chunks, envs, size, gamma, gaeLambda, Product(i, size) + k, j)
      && stepReturns[i][j][k] == advantages[i][j][k] + values[i][j][k]
  {
    var steps := Product(chunks, size);
    var flatValues := FlatValues(values, chunks, envs, size);
    var flatAdvantages, flatReturns :=
      ComputeGae(Flatten(rewards, envs, size), Some(flatValues), FlatDones(dones, chunks, envs, size), steps, envs,
        gamma, gaeLambda);
    advantages := Unflatten(flatAdvantages, chunks, envs, size);
    stepReturns := Unflatten(flatReturns, chunks, envs, size);
    forall i: nat, j: nat, k: nat | i < chunks && j < envs && k < size
      ensures advantages[i][j][k]
        == RecordedAdvantage(rewards, values, dones, chunks, envs, size, gamma, gaeLambda, Product(i, size) + k, j)
      ensures stepReturns[i][j][k] == advantages[i][j][k] + values[i][j][k]
    {
      UnflattenAt(flatAdvantages, chunks, envs, size, i, j, k);
      UnflattenAt(flatReturns, chunks, envs, size, i, j, k);
      ValueOfStep(values, chunks, envs, size, i, j, k);
    }
  }
}
