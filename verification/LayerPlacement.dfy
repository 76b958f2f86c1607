/** Which pipeline rank, virtual chunk and local index a decoder layer has in a Megatron checkpoint. */
module LayerPlacement {
  import opened Wrappers
  import opened Arithmetic

  datatype Schedular = OneFOneB | DualPipeV | Vpp | Unknown

  datatype Config = Config(schedular: Schedular, ppSize: nat, ppStages: Option<seq<nat>>, numLayers: nat)

  /** What `get_hetero_pp_rank` returns: traversed stage, index inside it, number of layers reported. */
  datatype Place = Place(stage: nat, local: nat, count: nat)

  const SearchLimit: nat := 1000

  /** The loop over `range(1000)`: running past the list raises, running past the limit returns None. */
  function Search(stages: seq<nat>, layer: nat, rank: nat): Outcome<Option<Place>>
    decreases SearchLimit - rank
  {
    if rank >= SearchLimit then Returned(None)
    else if rank >= |stages| then Raised
    else
      var offset := Sum(([0] + stages)[..rank + 1]);
      if offset <= layer < offset + stages[rank] then Returned(Some(Place(rank, layer - offset, stages[rank])))
      else Search(stages, layer, rank + 1)
  }

  /** How many stages a batch traverses. */
  function Slots(c: Config): nat {
    if c.schedular == DualPipeV then 2 * c.ppSize else c.ppSize
  }

  /** Without `pp_stages`; `size` is the number of layers of every stage. */
  function EvenSplit(c: Config, layer: nat): Outcome<Option<Place>> {
    if c.ppSize == 0 || c.numLayers % Slots(c) != 0 then Raised
    else if layer == 0 then Returned(Some(Place(0, 0, 0)))
    else
      var size := if c.schedular == DualPipeV then c.numLayers / c.ppSize / 2 else c.numLayers / c.ppSize;
      if size == 0 then Raised else Returned(Some(Place(layer / size, layer % size, size)))
  }

  /** The stage sizes in the order a batch visits them: down the ranks, and for dualpipev up again. */
  function Traversed(stages: seq<nat>, pp: nat): seq<nat>
    requires |stages| == 2 * pp
  {
    stages[..pp] + seq(pp, j requires 0 <= j < pp => stages[2 * pp - 1 - j])
  }

  function GetHeteroPpRank(c: Config, layer: nat): Outcome<Option<Place>> {
    match (c.schedular, c.ppStages)
    case (OneFOneB, Some(stages)) =>
      if |stages| != c.ppSize || Sum(stages) != c.numLayers then Raised
      else Search(stages, layer, 0)
    case (OneFOneB, None) => EvenSplit(c, layer)
    case (DualPipeV, Some(stages)) =>
      if |stages| != 2 * c.ppSize || Sum(stages) != c.numLayers then Raised
      else Search(Traversed(stages, c.ppSize), layer, 0)
    case (DualPipeV, None) => EvenSplit(c, layer)
    case _ => Raised
  }

  /** What the callers get: they unpack the result, which raises on None. */
  function Located(c: Config, layer: nat): Outcome<Place> {
    match GetHeteroPpRank(c, layer)
    case Returned(Some(place)) => Returned(place)
    case _ => Raised
  }

  // ---------------------------------------------------------------- prefix sums

  /** The first layer of a stage. */
  function Offset(sizes: seq<nat>, k: nat): nat
    requires k <= |sizes|
  {
    SumOfNats(sizes[..k]);
    Sum(sizes[..k])
  }

  lemma OffsetNext(sizes: seq<nat>, k: nat)
    requires k < |sizes|
    ensures Offset(sizes, k + 1) == Offset(sizes, k) + sizes[k]
  {
    assert sizes[..k + 1][..k] == sizes[..k];
  }

  lemma {:induction false} OffsetMonotone(sizes: seq<nat>, j: nat, k: nat)
    requires j <= k <= |sizes|
    ensures Offset(sizes, j) <= Offset(sizes, k)
    decreases k
  {
    if j < k {
      OffsetMonotone(sizes, j, k - 1);
      OffsetNext(sizes, k - 1);
    }
  }

  lemma {:induction false} PaddedSum(s: seq<nat>)
    ensures Sum([0] + s) == Sum(s)
  {
    if s == [] {
      assert ([0] + s)[..0] == [];
    } else {
      assert ([0] + s)[..|s|] == [0] + s[..|s| - 1];
      PaddedSum(s[..|s| - 1]);
    }
  }

  lemma PaddedOffset(sizes: seq<nat>, k: nat)
    requires k <= |sizes|
    ensures Sum(([0] + sizes)[..k + 1]) == Offset(sizes, k)
  {
    assert ([0] + sizes)[..k + 1] == [0] + sizes[..k];
    PaddedSum(sizes[..k]);
  }

  /** Layer `layer` is number `local` of stage `stage`. */
  predicate InStage(sizes: seq<nat>, layer: nat, stage: nat, local: nat) {
    stage < |sizes| && local < sizes[stage] && layer == Offset(sizes, stage) + local
  }

  lemma StageUnique(sizes: seq<nat>, layer: nat, j: nat, a: nat, k: nat, b: nat)
    requires InStage(sizes, layer, j, a) && InStage(sizes, layer, k, b)
    ensures j == k && a == b
  {
    OffsetNext(sizes, j);
    OffsetNext(sizes, k);
    if j < k {
      OffsetMonotone(sizes, j + 1, k);
    } else if k < j {
      OffsetMonotone(sizes, k + 1, j);
    }
  }

  predicate FoundIn(sizes: seq<nat>, layer: nat, r: Outcome<Option<Place>>) {
    && r.Returned? && r.value.Some? && InStage(sizes, layer, r.value.value.stage, r.value.value.local)
    && r.value.value.count == sizes[r.value.value.stage]
  }

  /**
   * The search finds the stage of the layer if there is one below the limit; otherwise it raises if the list is
   * shorter than the limit, and returns None if it is not.
   */
  lemma {:induction false} SearchFinds(sizes: seq<nat>, layer: nat, rank: nat)
    requires rank <= |sizes| && rank <= SearchLimit && Offset(sizes, rank) <= layer
    ensures var r := Search(sizes, layer, rank);
      var found := layer < Offset(sizes, if |sizes| < SearchLimit then |sizes| else SearchLimit);
      && (r.Raised? <==> !found && |sizes| < SearchLimit)
      && (r == Returned(None) <==> !found && |sizes| >= SearchLimit)
      && (found ==> FoundIn(sizes, layer, r))
    decreases SearchLimit - rank
  {
    var end := if |sizes| < SearchLimit then |sizes| else SearchLimit;
    if rank < end {
      PaddedOffset(sizes, rank);
      OffsetNext(sizes, rank);
      OffsetMonotone(sizes, rank + 1, end);
      if layer >= Offset(sizes, rank + 1) {
        SearchFinds(sizes, layer, rank + 1);
      }
    }
  }

  // ---------------------------------------------------------------- the stage slots

  /** The assertions on the configuration hold. */
  predicate Accepts(c: Config) {
    && (c.schedular == OneFOneB || c.schedular == DualPipeV)
    && match c.ppStages
       case Some(stages) => |stages| == Slots(c) && Sum(stages) == c.numLayers
       case None => c.ppSize > 0 && c.numLayers % Slots(c) == 0
  }

  /** The number of layers in every traversed stage. */
  function Sizes(c: Config): (r: seq<nat>)
    requires Accepts(c)
    ensures |r| == Slots(c)
  {
    match c.ppStages
    case Some(stages) => if c.schedular == DualPipeV then Traversed(stages, c.ppSize) else stages
    case None => seq(Slots(c), _ => c.numLayers / Slots(c))
  }

  lemma {:induction false} EvenOffset(slots: nat, size: nat, k: nat)
    requires k <= slots
    ensures Offset(seq(slots, _ => size), k) == k * size
  {
    var sizes := seq(slots, _ => size);
    if k > 0 {
      EvenOffset(slots, size, k - 1);
      OffsetNext(sizes, k - 1);
    } else {
      assert sizes[..0] == [];
    }
  }

  lemma {:induction false} SumConcat(a: seq<nat>, b: seq<nat>)
    ensures Sum(a + b) == Sum(a) + Sum(b)
  {
    if b == [] {
      assert a + b == a;
    } else {
      assert (a + b)[..|a + b| - 1] == a + b[..|b| - 1];
      SumConcat(a, b[..|b| - 1]);
    }
  }

  function Backwards(s: seq<nat>): (r: seq<nat>)
    ensures |r| == |s|
  {
    seq(|s|, j requires 0 <= j < |s| => s[|s| - 1 - j])
  }

  lemma BackwardsNext(init: seq<nat>, last: nat)
    ensures Backwards(init + [last]) == [last] + Backwards(init)
  {
  }

  lemma SumOne(x: nat)
    ensures Sum([x]) == x
  {
    assert [x][..0] == [];
  }

  lemma {:induction false} SumReversed(s: seq<nat>)
    ensures Sum(Backwards(s)) == Sum(s)
  {
    if s != [] {
      var init, last := s[..|s| - 1], s[|s| - 1];
      SumReversed(init);
      hide Backwards;
      BackwardsNext(init, last);
      SumConcat([last], Backwards(init));
      SumOne(last);
      assert s == init + [last];
    }
  }

  lemma TraversedParts(stages: seq<nat>, pp: nat)
    requires |stages| == 2 * pp
    ensures Traversed(stages, pp) == stages[..pp] + Backwards(stages[pp..])
  {
  }

  lemma TraversedSum(stages: seq<nat>, pp: nat)
    requires |stages| == 2 * pp
    ensures Sum(Traversed(stages, pp)) == Sum(stages)
  {
    hide *;
    TraversedParts(stages, pp);
    var front, back := stages[..pp], stages[pp..];
    assert stages == front + back;
    SumConcat(front, back);
    SumReversed(back);
    SumConcat(front, Backwards(back));
  }

  /** Reversing the second half of the stages loses no layer: the slots hold all of them. */
  lemma SizesCoverAll(c: Config)
    requires Accepts(c)
    ensures Offset(Sizes(c), Slots(c)) == c.numLayers
  {
    assert Sizes(c)[..Slots(c)] == Sizes(c);
    match c.ppStages
    case Some(stages) =>
      if c.schedular == DualPipeV {
        TraversedSum(stages, c.ppSize);
      }
    case None =>
      EvenOffset(Slots(c), c.numLayers / Slots(c), Slots(c));
  }

  /** The search does not give up before it reaches the layer. */
  predicate WithinLimit(c: Config, layer: nat)
    requires Accepts(c)
  {
    c.ppStages.None? || Slots(c) <= SearchLimit || layer < Offset(Sizes(c), SearchLimit)
  }

  /** Third component: the size of the stage, but 0 for layer 0 of an even split. */
  function Count(c: Config, layer: nat, stage: nat): nat
    requires Accepts(c) && stage < Slots(c)
  {
    if c.ppStages.None? && layer == 0 then 0 else Sizes(c)[stage]
  }

  lemma {:induction false} EvenSplitInStage(slots: nat, size: nat, layer: nat)
    requires size > 0 && layer < slots * size
    ensures InStage(seq(slots, _ => size), layer, layer / size, layer % size)
  {
    var k, r := layer / size, layer % size;
    assert layer == k * size + r;
    if k >= slots {
      ProductMonotone(slots, k, size);
    }
    assert Product(k, size) + r == layer && Product(slots, size) > layer;
    EvenOffset(slots, size, k);
  }

  lemma HalvedSize(n: nat, pp: nat)
    requires pp > 0 && n % (2 * pp) == 0
    ensures n / pp / 2 == n / (2 * pp)
  {
    var q := n / (2 * pp);
    Reordered(n, pp, q);
    QuotientExact(2 * q, pp);
  }

  lemma Reordered(n: nat, pp: nat, q: nat)
    requires pp > 0 && n % (2 * pp) == 0 && q == n / (2 * pp)
    ensures n == Product(2 * q, pp)
  {
    assert n == (2 * pp) * q;
  }

  lemma EvenLocated(c: Config, layer: nat)
    requires layer < c.numLayers && Accepts(c) && c.ppStages.None?
    ensures EvenSplit(c, layer).Returned? && EvenSplit(c, layer).value.Some?
    ensures var p := EvenSplit(c, layer).value.value;
      InStage(Sizes(c), layer, p.stage, p.local) && p.count == Count(c, layer, p.stage)
  {
    hide Sum, Offset, InStage;
    var slots := Slots(c);
    var size := c.numLayers / slots;
    assert c.numLayers == slots * size;
    if c.schedular == DualPipeV {
      HalvedSize(c.numLayers, c.ppSize);
    }
    EvenSplitInStage(slots, size, layer);
    SmallQuotient(size);
    InStageRange(Sizes(c), layer, layer / size, layer % size);
  }

  lemma InStageRange(sizes: seq<nat>, layer: nat, stage: nat, local: nat)
    requires InStage(sizes, layer, stage, local)
    ensures stage < |sizes|
  {
  }

  lemma SmallQuotient(size: nat)
    requires size > 0
    ensures 0 / size == 0 && 0 % size == 0
  {
  }

  /**
   * `get_hetero_pp_rank`, unpacked, succeeds exactly on accepted configurations within the search limit, and then tells
   * the slot of the layer.
   */
  lemma LayerLocated(c: Config, layer: nat)
    requires layer < c.numLayers
    ensures Located(c, layer).Returned? <==> Accepts(c) && WithinLimit(c, layer)
    ensures var r := Located(c, layer); r.Returned? ==>
      InStage(Sizes(c), layer, r.value.stage, r.value.local) && r.value.count == Count(c, layer, r.value.stage)
  {
    if Accepts(c) {
      SizesCoverAll(c);
      if c.ppStages.Some? {
        OffsetZero(Sizes(c));
        SearchFinds(Sizes(c), layer, 0);
      } else {
        EvenLocated(c, layer);
      }
    }
  }

  lemma OffsetZero(sizes: seq<nat>)
    ensures Offset(sizes, 0) == 0
  {
    assert sizes[..0] == [];
  }

  /** Every slot entry is the place of exactly one layer. */
  lemma SlotFilled(c: Config, stage: nat, local: nat)
    requires Accepts(c) && stage < Slots(c) && local < Sizes(c)[stage]
    requires c.ppStages.None? || stage < SearchLimit
    ensures var layer := Offset(Sizes(c), stage) + local;
      && layer < c.numLayers
      && Located(c, layer) == Returned(Place(stage, local, Count(c, layer, stage)))
  {
    var layer := Offset(Sizes(c), stage) + local;
    OffsetNext(Sizes(c), stage);
    OffsetMonotone(Sizes(c), stage + 1, Slots(c));
    SizesCoverAll(c);
    if Slots(c) > SearchLimit && stage < SearchLimit {
      OffsetMonotone(Sizes(c), stage + 1, SearchLimit);
    }
    LayerLocated(c, layer);
    var r := Located(c, layer).value;
    StageUnique(Sizes(c), layer, stage, local, r.stage, r.local);
  }

  // ---------------------------------------------------------------- ranks and model keys

  /** The pipeline rank that owns a slot: for dualpipev the second pass runs backwards. */
  function RankOf(c: Config, stage: nat): nat
    requires stage < Slots(c)
  {
    if stage < c.ppSize then stage else 2 * c.ppSize - 1 - stage
  }

  function ModelKey(c: Config, stage: nat): string {
    if c.schedular != DualPipeV then "model" else if stage < c.ppSize then "model0" else "model1"
  }

  /** Rank and model key identify the slot. */
  lemma SlotIdentified(c: Config, j: nat, k: nat)
    requires Accepts(c) && j < Slots(c) && k < Slots(c)
    requires RankOf(c, j) == RankOf(c, k) && ModelKey(c, j) == ModelKey(c, k)
    ensures j == k
  {
    assert "model0"[5] != "model1"[5];
  }

  /** Different layers have different ranks, model keys or local indices: no two are stored in one place. */
  lemma PlacesDistinct(c: Config, a: nat, b: nat)
    requires a < c.numLayers && b < c.numLayers
    requires Located(c, a).Returned? && Located(c, b).Returned?
    ensures Accepts(c)
    ensures var p, q := Located(c, a).value, Located(c, b).value;
      p.stage < Slots(c) && q.stage < Slots(c) &&
      ((RankOf(c, p.stage), ModelKey(c, p.stage), p.local) == (RankOf(c, q.stage), ModelKey(c, q.stage), q.local) ==>
        a == b)
  {
    LayerLocated(c, a);
    LayerLocated(c, b);
    var p, q := Located(c, a).value, Located(c, b).value;
    if RankOf(c, p.stage) == RankOf(c, q.stage) && ModelKey(c, p.stage) == ModelKey(c, q.stage) {
      SlotIdentified(c, p.stage, q.stage);
    }
  }

  /**
   * In dualpipev, rank `r` holds `stages[r]` layers in its first chunk and `stages[pp + r]` in its second, despite the
   * reversal.
   */
  lemma VShape(c: Config, r: nat)
    requires Accepts(c) && c.schedular == DualPipeV && c.ppStages.Some? && r < c.ppSize
    ensures RankOf(c, r) == r && ModelKey(c, r) == "model0" && Sizes(c)[r] == c.ppStages.value[r]
    ensures var back := 2 * c.ppSize - 1 - r;
      RankOf(c, back) == r && ModelKey(c, back) == "model1" && Sizes(c)[back] == c.ppStages.value[c.ppSize + r]
  {
  }

  // ---------------------------------------------------------------- the table of the writer

  datatype Entry = Entry(modelKey: string, layer: nat, local: nat, count: nat)

  function EntryAt(c: Config, stage: nat, local: nat): Entry
    requires Accepts(c) && stage < Slots(c)
  {
    var layer := Offset(Sizes(c), stage) + local;
    Entry(ModelKey(c, stage), layer, local, Count(c, layer, stage))
  }

  function Clamp(x: int, hi: nat): nat {
    if x < 0 then 0 else if x > hi then hi else x
  }

  /** The layers below `upto` of one slot, in order. */
  function Block(c: Config, stage: nat, upto: nat): seq<Entry>
    requires Accepts(c) && stage < Slots(c)
  {
    seq(Clamp(upto - Offset(Sizes(c), stage), Sizes(c)[stage]), (i: nat) => EntryAt(c, stage, i))
  }

  /** What rank `rank` is to convert: its slot, and for dualpipev the slot of the way back behind it. */
  function RankRows(c: Config, rank: nat, upto: nat): seq<Entry>
    requires Accepts(c) && rank < c.ppSize
  {
    Block(c, rank, upto) + if c.schedular == DualPipeV then Block(c, 2 * c.ppSize - 1 - rank, upto) else []
  }

  lemma BlockStart(c: Config, stage: nat)
    requires Accepts(c) && stage < Slots(c)
    ensures Block(c, stage, 0) == []
  {
  }

  lemma BlockGrows(c: Config, stage: nat, layer: nat, at: nat, local: nat)
    requires Accepts(c) && stage < Slots(c) && InStage(Sizes(c), layer, at, local)
    ensures Block(c, stage, layer + 1) == Block(c, stage, layer) + if stage == at then [EntryAt(c, at, local)] else []
    ensures stage > at ==> Block(c, stage, layer + 1) == []
  {
    OffsetNext(Sizes(c), stage);
    OffsetNext(Sizes(c), at);
    if stage < at {
      OffsetMonotone(Sizes(c), stage + 1, at);
    } else if at < stage {
      OffsetMonotone(Sizes(c), at + 1, stage);
    }
    hide Offset, Sizes, Sum, Count;
  }

  lemma RowsGrow(c: Config, rank: nat, layer: nat, at: nat, local: nat)
    requires Accepts(c) && rank < c.ppSize && InStage(Sizes(c), layer, at, local)
    ensures RankRows(c, rank, layer + 1)
      == RankRows(c, rank, layer) + if rank == RankOf(c, at) then [EntryAt(c, at, local)] else []
  {
    hide Block, Sizes, EntryAt, Accepts;
    BlockGrows(c, rank, layer, at, local);
    InStageRange(Sizes(c), layer, at, local);
    if c.schedular == DualPipeV {
      var back := 2 * c.ppSize - 1 - rank;
      BlockGrows(c, back, layer, at, local);
      AppendEither(Block(c, rank, layer), Block(c, back, layer), EntryAt(c, at, local));
    }
  }

  lemma AppendEither<T>(a: seq<T>, b: seq<T>, x: T)
    ensures a + (b + [x]) == a + b + [x]
    ensures b == [] ==> (a + [x]) + b == a + b + [x]
  {
  }

  lemma RowsStart(c: Config, rank: nat)
    requires Accepts(c) && rank < c.ppSize
    ensures RankRows(c, rank, 0) == []
  {
    BlockStart(c, rank);
    if c.schedular == DualPipeV {
      BlockStart(c, 2 * c.ppSize - 1 - rank);
    }
  }

  /** All layers of the configuration can be located. */
  ghost predicate Convertible(c: Config) {
    forall layer :: 0 <= layer < c.numLayers ==> Located(c, layer).Returned?
  }

  /**
   * The table holds what the first `upto` layers put there; the configuration is only looked at when there is a layer.
   */
  ghost predicate TableUpTo(c: Config, table: seq<seq<Entry>>, upto: nat) {
    && |table| == c.ppSize
    && (upto == 0 ==> forall rank :: 0 <= rank < c.ppSize ==> table[rank] == [])
    && (upto > 0 ==> Accepts(c) && forall rank :: 0 <= rank < c.ppSize ==> table[rank] == RankRows(c, rank, upto))
  }

  lemma TableGrows(c: Config, table: seq<seq<Entry>>, layer: nat, place: Place)
    requires layer < c.numLayers && Located(c, layer) == Returned(place) && TableUpTo(c, table, layer)
    ensures Accepts(c) && place.stage < Slots(c)
    ensures var rank := RankOf(c, place.stage);
      TableUpTo(c, table[rank := table[rank] + [Entry(ModelKey(c, place.stage), layer, place.local, place.count)]],
        layer + 1)
  {
    LayerLocated(c, layer);
    var at := RankOf(c, place.stage);
    var entry := Entry(ModelKey(c, place.stage), layer, place.local, place.count);
    assert entry == EntryAt(c, place.stage, place.local);
    hide Located, Sizes, InStage, EntryAt;
    var grown := table[at := table[at] + [entry]];
    forall rank | 0 <= rank < c.ppSize
      ensures grown[rank] == RankRows(c, rank, layer + 1)
    {
      RowsGrow(c, rank, layer, place.stage, place.local);
      RowsStart(c, rank);
    }
  }

  /** The loop of `middle_file_to_mg` that hands the layers to the ranks. */
  method WriterTable(c: Config) returns (r: Outcome<seq<seq<Entry>>>)
    ensures r.Returned? <==> (c.schedular == OneFOneB || c.schedular == DualPipeV) && Convertible(c)
    ensures r.Returned? ==> TableUpTo(c, r.value, c.numLayers)
  {
    hide Located, Accepts, RankRows, RankOf, ModelKey;
    if c.schedular != OneFOneB && c.schedular != DualPipeV {
      return Raised;
    }
    var table: seq<seq<Entry>> := seq(c.ppSize, _ => []);
    for layer := 0 to c.numLayers
      invariant forall l :: 0 <= l < layer ==> Located(c, l).Returned?
      invariant TableUpTo(c, table, layer)
    {
      var place :- Located(c, layer);
      TableGrows(c, table, layer, place);
      var rank, key;
      if c.schedular == OneFOneB {
        rank, key := place.stage, "model";
      } else if place.stage < c.ppSize {
        rank, key := place.stage, "model0";
      } else {
        rank, key := 2 * c.ppSize - 1 - place.stage, "model1";
      }
      WhereStored(c, place.stage);
      table := table[rank := table[rank] + [Entry(key, layer, place.local, place.count)]];
    }
    r := Returned(table);
  }

  lemma WhereStored(c: Config, stage: nat)
    requires Accepts(c) && stage < Slots(c)
    ensures c.schedular == OneFOneB ==> RankOf(c, stage) == stage && ModelKey(c, stage) == "model"
    ensures c.schedular == DualPipeV ==>
      (RankOf(c, stage), ModelKey(c, stage))
        == if stage < c.ppSize then (stage, "model0") else (2 * c.ppSize - 1 - stage, "model1")
    ensures RankOf(c, stage) < c.ppSize
  {
  }

  predicate LayerAt(table: seq<seq<Entry>>, rank: nat, i: nat, layer: nat) {
    rank < |table| && i < |table[rank]| && table[rank][i].layer == layer
  }

  ghost predicate Listed(table: seq<seq<Entry>>, layer: nat) {
    exists rank: nat, i: nat :: LayerAt(table, rank, i, layer)
  }

  /** The finished table holds every layer once. */
  lemma TableIsBijection(c: Config, table: seq<seq<Entry>>)
    requires c.numLayers > 0 && TableUpTo(c, table, c.numLayers)
    ensures forall layer: nat :: layer < c.numLayers ==> Listed(table, layer)
    ensures forall rank: nat, i: nat, other: nat, j: nat, layer: nat ::
      LayerAt(table, rank, i, layer) && LayerAt(table, other, j, layer) ==> rank == other && i == j
  {
    forall layer: nat | layer < c.numLayers
      ensures Listed(table, layer)
    {
      var stage, local := StageExists(c, layer);
      var i := RowOf(c, stage, local);
      assert LayerAt(table, RankOf(c, stage), i, layer);
    }
    forall rank: nat, i: nat, other: nat, j: nat, layer: nat |
      LayerAt(table, rank, i, layer) && LayerAt(table, other, j, layer)
      ensures rank == other && i == j
    {
      var a, p := SlotOfRow(c, rank, i);
      var b, q := SlotOfRow(c, other, j);
      StageUnique(Sizes(c), layer, a, p, b, q);
    }
  }

  lemma FullBlock(c: Config, stage: nat)
    requires Accepts(c) && stage < Slots(c)
    ensures |Block(c, stage, c.numLayers)| == Sizes(c)[stage]
  {
    SizesCoverAll(c);
    OffsetNext(Sizes(c), stage);
    OffsetMonotone(Sizes(c), stage + 1, Slots(c));
  }

  lemma {:induction false} StageExistsBelow(sizes: seq<nat>, layer: nat, k: nat) returns (stage: nat, local: nat)
    requires k <= |sizes| && layer < Offset(sizes, k)
    ensures InStage(sizes, layer, stage, local)
  {
    OffsetZero(sizes);
    OffsetNext(sizes, k - 1);
    if layer < Offset(sizes, k - 1) {
      stage, local := StageExistsBelow(sizes, layer, k - 1);
    } else {
      stage, local := k - 1, layer - Offset(sizes, k - 1);
    }
  }

  lemma StageExists(c: Config, layer: nat) returns (stage: nat, local: nat)
    requires Accepts(c) && layer < c.numLayers
    ensures InStage(Sizes(c), layer, stage, local)
  {
    SizesCoverAll(c);
    stage, local := StageExistsBelow(Sizes(c), layer, Slots(c));
  }

  lemma RowOf(c: Config, stage: nat, local: nat) returns (i: nat)
    requires Accepts(c) && stage < Slots(c) && local < Sizes(c)[stage]
    ensures RankOf(c, stage) < c.ppSize && i < |RankRows(c, RankOf(c, stage), c.numLayers)|
    ensures RankRows(c, RankOf(c, stage), c.numLayers)[i] == EntryAt(c, stage, local)
  {
    hide Offset, Sum, Sizes, Count, EntryAt, Block, Accepts;
    WhereStored(c, stage);
    EntryOfBlock(c, stage, local);
    i := if stage < c.ppSize then local else |Block(c, RankOf(c, stage), c.numLayers)| + local;
    WayBack(c, stage);
  }

  lemma EntryOfBlock(c: Config, stage: nat, local: nat)
    requires Accepts(c) && stage < Slots(c) && local < Sizes(c)[stage]
    ensures local < |Block(c, stage, c.numLayers)|
    ensures Block(c, stage, c.numLayers)[local] == EntryAt(c, stage, local)
  {
    FullBlock(c, stage);
    hide Offset, Sum, Sizes, Count, EntryAt;
  }

  /** The slots behind the first `ppSize` are those of the way back. */
  lemma WayBack(c: Config, stage: nat)
    requires Accepts(c) && stage < Slots(c)
    ensures c.ppSize <= stage ==> c.schedular == DualPipeV && stage == 2 * c.ppSize - 1 - RankOf(c, stage)
    ensures stage < c.ppSize ==> stage == RankOf(c, stage)
  {
  }

  lemma SlotOfRow(c: Config, rank: nat, i: nat) returns (stage: nat, local: nat)
    requires Accepts(c) && rank < c.ppSize && i < |RankRows(c, rank, c.numLayers)|
    ensures InStage(Sizes(c), RankRows(c, rank, c.numLayers)[i].layer, stage, local) && rank == RankOf(c, stage)
    ensures RankRows(c, rank, c.numLayers)[i] == EntryAt(c, stage, local)
    ensures i == if stage < c.ppSize then local else |Block(c, rank, c.numLayers)| + local
  {
    FullBlock(c, rank);
    hide Offset, Sum, Sizes, Count;
    var first := |Block(c, rank, c.numLayers)|;
    if i < first {
      stage, local := rank, i;
    } else {
      stage, local := 2 * c.ppSize - 1 - rank, i - first;
      FullBlock(c, stage);
    }
  }

  // ---------------------------------------------------------------- the table of the reader

  datatype ReaderEntry = ReaderEntry(modelKey: string, layer: nat, local: Option<nat>)

  function Stripped(rows: seq<Entry>): (r: seq<ReaderEntry>)
    ensures |r| == |rows|
  {
    seq(|rows|, i requires 0 <= i < |rows| => ReaderEntry(rows[i].modelKey, rows[i].layer, Some(rows[i].local)))
  }

  /** Where the reader takes the embedding from: rank and model key. */
  function EmbeddingRead(c: Config): (nat, string) {
    (0, if c.schedular == OneFOneB then "model" else "model0")
  }

  /** Where the reader takes the final norm and the output layer from. */
  function NormRead(c: Config): (int, string) {
    if c.schedular == DualPipeV then (0, "model1")
    else (c.ppSize - 1, if c.schedular == OneFOneB then "model" else "model1")
  }

  function PreEntry(c: Config): ReaderEntry {
    ReaderEntry(EmbeddingRead(c).1, c.numLayers, None)
  }

  function PostEntry(c: Config): ReaderEntry {
    ReaderEntry(NormRead(c).1, c.numLayers + 1, None)
  }

  /** The reader's rows of one rank: the writer's, with the embedding before and the final norm behind. */
  function ReaderRows(c: Config, rank: nat, rows: seq<Entry>): seq<ReaderEntry> {
    (if rank == EmbeddingRead(c).0 then [PreEntry(c)] else [])
    + Stripped(rows)
    + (if rank == NormRead(c).0 then [PostEntry(c)] else [])
  }

  predicate ReadsTable(c: Config, table: seq<seq<Entry>>, rows: seq<seq<ReaderEntry>>) {
    |rows| == |table| && forall rank :: 0 <= rank < |rows| ==> rows[rank] == ReaderRows(c, rank, table[rank])
  }

  /**
   * The first entry of rank 0 is for the embedding, under the number behind the last layer; the last entry of the last
   * rank, or of rank 0 for dualpipev, is for the final norm and the output layer, under the next number.
   */
  predicate HasEnds(c: Config, rows: seq<seq<ReaderEntry>>) {
    && |rows| == c.ppSize > 0 && rows[0] != []
    && rows[0][0] == ReaderEntry(if c.schedular == OneFOneB then "model" else "model0", c.numLayers, None)
    && var last := rows[if c.schedular == DualPipeV then 0 else c.ppSize - 1];
       var key := if c.schedular == OneFOneB then "model" else "model1";
       last != [] && last[|last| - 1] == ReaderEntry(key, c.numLayers + 1, None)
  }

  lemma EndsRead(c: Config, table: seq<seq<Entry>>, rows: seq<seq<ReaderEntry>>)
    requires ReadsTable(c, table, rows) && |table| == c.ppSize > 0
    ensures HasEnds(c, rows)
  {
    var last := if c.schedular == DualPipeV then 0 else c.ppSize - 1;
    assert rows[0] == ReaderRows(c, 0, table[0]) && rows[last] == ReaderRows(c, last, table[last]);
    hide Stripped;
  }

  /** The loop of the reader's `main`, then the two extra entries. */
  method ReaderTable(c: Config) returns (r: Outcome<seq<seq<ReaderEntry>>>)
    ensures r.Returned? <==> c.schedular != Unknown && c.ppSize > 0 && Convertible(c)
    ensures r.Returned? ==> exists table :: TableUpTo(c, table, c.numLayers) && ReadsTable(c, table, r.value)
    ensures r.Returned? ==> HasEnds(c, r.value)
  {
    hide Located, Accepts, RankRows, RankOf, ModelKey;
    var rows: seq<seq<ReaderEntry>> := seq(c.ppSize, _ => []);
    ghost var table: seq<seq<Entry>> := seq(c.ppSize, _ => []);
    for layer := 0 to c.numLayers
      invariant forall l :: 0 <= l < layer ==> Located(c, l).Returned?
      invariant TableUpTo(c, table, layer) && |rows| == c.ppSize
      invariant forall rank :: 0 <= rank < c.ppSize ==> rows[rank] == Stripped(table[rank])
    {
      var place :- Located(c, layer);
      TableGrows(c, table, layer, place);
      var rank, key;
      if c.schedular == OneFOneB {
        rank, key := place.stage, "model";
      } else if place.stage < c.ppSize {
        rank, key := place.stage, "model0";
      } else {
        rank, key := 2 * c.ppSize - 1 - place.stage, "model1";
      }
      OnlyTwo(c);
      WhereStored(c, place.stage);
      table := table[rank := table[rank] + [Entry(key, layer, place.local, place.count)]];
      rows := rows[rank := rows[rank] + [ReaderEntry(key, layer, Some(place.local))]];
    }
    NoSlots(c);
    if c.ppSize == 0 || c.schedular == Unknown {
      return Raised;
    }
    rows := AddEnds(c, rows, table);
    EndsRead(c, table, rows);
    r := Returned(rows);
  }

  method AddEnds(c: Config, stripped: seq<seq<ReaderEntry>>, ghost table: seq<seq<Entry>>)
      returns (rows: seq<seq<ReaderEntry>>)
    requires c.schedular != Unknown && c.ppSize > 0 && |stripped| == |table| == c.ppSize
    requires forall rank :: 0 <= rank < c.ppSize ==> stripped[rank] == Stripped(table[rank])
    ensures ReadsTable(c, table, rows)
  {
    hide Stripped;
    rows := stripped;
    var last := c.ppSize - 1;
    match c.schedular {
    case OneFOneB =>
      rows := rows[0 := [ReaderEntry("model", c.numLayers, None)] + rows[0]];
      rows := rows[last := rows[last] + [ReaderEntry("model", c.numLayers + 1, None)]];
    case Vpp =>
      rows := rows[0 := [ReaderEntry("model0", c.numLayers, None)] + rows[0]];
      rows := rows[last := rows[last] + [ReaderEntry("model1", c.numLayers + 1, None)]];
    case DualPipeV =>
      rows := rows[0 :=
        [ReaderEntry("model0", c.numLayers, None)] + rows[0] + [ReaderEntry("model1", c.numLayers + 1, None)]];
    }
    assert forall rank :: 0 <= rank < c.ppSize ==> rows[rank] == ReaderRows(c, rank, table[rank]);
  }

  lemma OnlyTwo(c: Config)
    requires Accepts(c)
    ensures c.schedular == OneFOneB || c.schedular == DualPipeV
  {
  }

  lemma NoSlots(c: Config)
    ensures c.ppSize == 0 && c.numLayers > 0 ==> !Convertible(c)
    ensures c.schedular == Unknown && c.numLayers > 0 ==> !Convertible(c)
  {
    if c.ppSize == 0 && c.numLayers > 0 && Convertible(c) {
      LayerLocated(c, 0);
      assert false;
    }
    if c.schedular == Unknown && c.numLayers > 0 {
      assert Located(c, 0).Raised?;
    }
  }

  // ---------------------------------------------------------------- agreement on the embedding and the final norm

  /** The writer stores the embedding with layer 0 and the final norm with the last layer. */
  function WrittenWith(c: Config, layer: nat): (nat, string)
    requires layer < c.numLayers && Located(c, layer).Returned?
  {
    LayerLocated(c, layer);
    var stage := Located(c, layer).value.stage;
    (RankOf(c, stage), ModelKey(c, stage))
  }

  /** The embedding is read where it was written if and only if the first stage has a layer. */
  lemma EmbeddingAgrees(c: Config)
    requires c.numLayers > 0 && Located(c, 0).Returned?
    ensures WrittenWith(c, 0) == EmbeddingRead(c) <==> c.ppStages.None? || c.ppStages.value[0] > 0
  {
    LayerLocated(c, 0);
    var place := Located(c, 0).value;
    var sizes := Sizes(c);
    OffsetZero(sizes);
    assert "model0"[5] != "model1"[5];
    if c.ppStages.None? {
      assert place.stage == 0;
    } else {
      if sizes[0] > 0 {
        StageUnique(sizes, 0, 0, 0, place.stage, place.local);
      }
      assert sizes[0] == c.ppStages.value[0];
    }
  }

  lemma TwoStages(a: nat, b: nat)
    ensures Sum([a, b]) == a + b
  {
    assert [a, b][..1] == [a] && [a][..0] == [];
    assert Sum([a]) == a;
  }

  /** Nobody refuses an empty first stage, and the embedding is then looked for on the wrong rank. */
  lemma EmptyFirstStage()
    ensures var c := Config(OneFOneB, 2, Some([0, 4]), 4);
      Located(c, 0).Returned? && WrittenWith(c, 0) != EmbeddingRead(c)
  {
    var c := Config(OneFOneB, 2, Some([0, 4]), 4);
    TwoStages(0, 4);
    LayerLocated(c, 0);
    EmbeddingAgrees(c);
  }

  /** The stage a batch visits last. */
  function LastStage(c: Config): nat
    requires Accepts(c) && c.ppStages.Some? && c.ppSize > 0
  {
    if c.schedular == DualPipeV then c.ppStages.value[c.ppSize] else c.ppStages.value[c.ppSize - 1]
  }

  lemma LastLayerSlot(sizes: seq<nat>, last: nat, stage: nat, local: nat)
    requires InStage(sizes, last, stage, local) && Offset(sizes, |sizes|) == last + 1
    ensures stage == |sizes| - 1 <==> sizes[|sizes| - 1] > 0
  {
    var final := |sizes| - 1;
    OffsetNext(sizes, final);
    if sizes[final] > 0 {
      StageUnique(sizes, last, final, sizes[final] - 1, stage, local);
    }
  }

  lemma NormSlot(c: Config, stage: nat)
    requires Accepts(c) && stage < Slots(c)
    ensures (RankOf(c, stage), ModelKey(c, stage)) == NormRead(c) <==> stage == Slots(c) - 1
  {
    assert "model0"[5] != "model1"[5];
  }

  lemma LastSize(c: Config)
    requires Accepts(c) && c.numLayers > 0
    ensures c.ppSize > 0 && |Sizes(c)| > 0
    ensures Sizes(c)[|Sizes(c)| - 1] > 0 <==> c.ppStages.None? || LastStage(c) > 0
  {
    if c.ppStages.None? {
      assert c.numLayers == Slots(c) * (c.numLayers / Slots(c));
    }
  }

  /** The final norm is read where it was written if and only if the last traversed stage has a layer. */
  lemma NormAgrees(c: Config)
    requires c.numLayers > 0 && Located(c, c.numLayers - 1).Returned?
    ensures Accepts(c) && c.ppSize > 0
    ensures WrittenWith(c, c.numLayers - 1) == NormRead(c) <==> c.ppStages.None? || LastStage(c) > 0
  {
    var last := c.numLayers - 1;
    LayerLocated(c, last);
    var place := Located(c, last).value;
    LastSize(c);
    SizesCoverAll(c);
    LastLayerSlot(Sizes(c), last, place.stage, place.local);
    InStageRange(Sizes(c), last, place.stage, place.local);
    NormSlot(c, place.stage);
    hide Located, Sizes, Offset, InStage, Accepts, RankOf, ModelKey, NormRead, LastStage;
  }

  /** Nor an empty last stage, which misplaces the final norm. */
  lemma EmptyLastStage()
    ensures var c := Config(OneFOneB, 2, Some([4, 0]), 4);
      Located(c, 3).Returned? && WrittenWith(c, 3) != NormRead(c)
  {
    var c := Config(OneFOneB, 2, Some([4, 0]), 4);
    TwoStages(4, 0);
    LayerLocated(c, 3);
    NormAgrees(c);
  }
}
