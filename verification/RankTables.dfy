/** The rows of every pipeline rank, written out for each way of giving the stages. */
module RankTables {
  import opened Wrappers
  import opened Arithmetic
  import opened LayerPlacement

  /** `count` layers from `start` on, under one model key. */
  function Chunk(key: string, start: nat, count: nat): (rows: seq<Entry>)
    ensures |rows| == count
  {
    seq(count, (i: nat) => Entry(key, start + i, i, count))
  }

  lemma BlockIsChunk(c: Config, stage: nat)
    requires Accepts(c) && stage < Slots(c) && c.ppStages.Some?
    ensures Block(c, stage, c.numLayers) == Chunk(ModelKey(c, stage), Offset(Sizes(c), stage), Sizes(c)[stage])
  {
    FullBlock(c, stage);
    hide Offset, Sizes, ModelKey;
  }

  /** 1f1b: rank `r` has the layers behind those of the ranks before it, as many as its stage says. */
  lemma OneFOneBRows(c: Config, stages: seq<nat>, rank: nat)
    requires Accepts(c) && c.schedular == OneFOneB && c.ppStages == Some(stages) && rank < c.ppSize
    ensures Sum(stages[..rank]) >= 0
    ensures RankRows(c, rank, c.numLayers) == Chunk("model", Sum(stages[..rank]), stages[rank])
  {
    SumOfNats(stages[..rank]);
    BlockIsChunk(c, rank);
    hide Chunk, Block;
  }

  lemma SecondPass(stages: seq<nat>, pp: nat, rank: nat)
    requires |stages| == 2 * pp && rank < pp
    ensures Traversed(stages, pp)[..2 * pp - 1 - rank] == stages[..pp] + Backwards(stages[pp + rank + 1..])
  {
  }

  lemma SecondStart(stages: seq<nat>, pp: nat, rank: nat)
    requires |stages| == 2 * pp && rank < pp
    ensures Sum(Traversed(stages, pp)[..2 * pp - 1 - rank]) == Sum(stages[..pp]) + Sum(stages[pp + rank + 1..])
  {
    hide *;
    SecondPass(stages, pp, rank);
    SumConcat(stages[..pp], Backwards(stages[pp + rank + 1..]));
    SumReversed(stages[pp + rank + 1..]);
  }

  lemma FirstPass(stages: seq<nat>, pp: nat, rank: nat)
    requires |stages| == 2 * pp && rank < pp
    ensures Traversed(stages, pp)[..rank] == stages[..rank] && Traversed(stages, pp)[rank] == stages[rank]
    ensures Traversed(stages, pp)[2 * pp - 1 - rank] == stages[pp + rank]
  {
  }

  /**
   * dualpipev: rank `r` has a first chunk as in 1f1b, and a second one behind all first chunks and behind the second
   * chunks of the ranks after it.
   */
  lemma DualPipeVRows(c: Config, stages: seq<nat>, rank: nat)
    requires Accepts(c) && c.schedular == DualPipeV && c.ppStages == Some(stages) && rank < c.ppSize
    ensures |stages| == 2 * c.ppSize
    ensures var pp := c.ppSize;
      && Sum(stages[..rank]) >= 0 && Sum(stages[..pp]) + Sum(stages[pp + rank + 1..]) >= 0
      && RankRows(c, rank, c.numLayers)
        == Chunk("model0", Sum(stages[..rank]), stages[rank])
          + Chunk("model1", Sum(stages[..pp]) + Sum(stages[pp + rank + 1..]), stages[pp + rank])
  {
    hide *;
    DualSizes(c, stages, rank);
    var pp, back := c.ppSize, 2 * c.ppSize - 1 - rank;
    SumOfNats(stages[..rank]);
    SumOfNats(stages[..pp]);
    SumOfNats(stages[pp + rank + 1..]);
    RowsAre(c, rank);
    FirstPass(stages, pp, rank);
    SecondStart(stages, pp, rank);
    BlockIsChunk(c, rank);
    BlockIsChunk(c, back);
    VShape(c, rank);
  }

  lemma RowsAre(c: Config, rank: nat)
    requires Accepts(c) && rank < c.ppSize
    ensures Slots(c) == if c.schedular == DualPipeV then 2 * c.ppSize else c.ppSize
    ensures RankRows(c, rank, c.numLayers) == Block(c, rank, c.numLayers)
      + if c.schedular == DualPipeV then Block(c, 2 * c.ppSize - 1 - rank, c.numLayers) else []
  {
    hide Block;
  }

  lemma DualSizes(c: Config, stages: seq<nat>, rank: nat)
    requires Accepts(c) && c.schedular == DualPipeV && c.ppStages == Some(stages) && rank < c.ppSize
    ensures |stages| == 2 * c.ppSize == Slots(c) && Sizes(c) == Traversed(stages, c.ppSize)
    ensures Offset(Sizes(c), rank) == Sum(Traversed(stages, c.ppSize)[..rank])
    ensures Offset(Sizes(c), 2 * c.ppSize - 1 - rank) == Sum(Traversed(stages, c.ppSize)[..2 * c.ppSize - 1 - rank])
  {
    hide Sum, Traversed;
  }

  /** As many layers for every chunk; the entry of layer 0 shows none. */
  function EvenChunk(key: string, start: nat, count: nat): (rows: seq<Entry>)
    ensures |rows| == count
  {
    seq(count, (i: nat) => Entry(key, start + i, i, if start + i == 0 then 0 else count))
  }

  lemma {:induction false} SumOfEqual(n: nat, size: nat)
    ensures Sum(seq(n, _ => size)) == Product(n, size)
  {
    ProductNext(n, size);
    if n > 0 {
      SumOfEqual(n - 1, size);
      assert seq(n, _ => size)[..n - 1] == seq(n - 1, _ => size);
    }
  }

  lemma EvenStart(slots: nat, size: nat, stage: nat)
    requires stage < slots
    ensures Offset(seq(slots, _ => size), stage) == Product(stage, size)
  {
    assert seq(slots, _ => size)[..stage] == seq(stage, _ => size);
    SumOfEqual(stage, size);
  }

  lemma EvenBlock(c: Config, stage: nat, size: nat)
    requires Accepts(c) && stage < Slots(c) && c.ppStages.None? && size == c.numLayers / Slots(c)
    ensures Block(c, stage, c.numLayers) == EvenChunk(ModelKey(c, stage), Product(stage, size), size)
  {
    FullBlock(c, stage);
    EvenStart(Slots(c), size, stage);
    hide Offset, ModelKey, Slots;
  }

  /** Without stages every chunk of 1f1b has the same number of layers. */
  lemma EvenRows(c: Config, rank: nat, size: nat)
    requires Accepts(c) && c.schedular == OneFOneB && c.ppStages.None? && rank < c.ppSize
    requires size == c.numLayers / c.ppSize
    ensures RankRows(c, rank, c.numLayers) == EvenChunk("model", Product(rank, size), size)
  {
    hide *;
    EvenSlots(c, size);
    KeyOf(c, rank);
    RowsAre(c, rank);
    EvenBlock(c, rank, size);
  }

  /** Without stages every chunk of dualpipev has the same number of layers. */
  lemma EvenRowsBothWays(c: Config, rank: nat, size: nat)
    requires Accepts(c) && c.schedular == DualPipeV && c.ppStages.None? && rank < c.ppSize
    requires size == c.numLayers / (2 * c.ppSize)
    ensures RankRows(c, rank, c.numLayers)
      == EvenChunk("model0", Product(rank, size), size)
        + EvenChunk("model1", Product(2 * c.ppSize - 1 - rank, size), size)
  {
    hide *;
    EvenSlots(c, size);
    KeyOf(c, rank);
    KeyOf(c, 2 * c.ppSize - 1 - rank);
    RowsAre(c, rank);
    EvenBlock(c, rank, size);
    EvenBlock(c, 2 * c.ppSize - 1 - rank, size);
  }

  lemma EvenSlots(c: Config, size: nat)
    requires Accepts(c) && c.ppStages.None?
    ensures Slots(c) == if c.schedular == DualPipeV then 2 * c.ppSize else c.ppSize
    ensures size == c.numLayers / (if c.schedular == DualPipeV then 2 * c.ppSize else c.ppSize)
      <==> size == c.numLayers / Slots(c)
  {
  }

  lemma KeyOf(c: Config, stage: nat)
    ensures ModelKey(c, stage)
      == if c.schedular != DualPipeV then "model" else if stage < c.ppSize then "model0" else "model1"
  {
  }
}
