/** The layers the table gives to a pipeline rank, converted apart and merged into its files. */
module WholeRanks {
  import opened Wrappers
  import opened Lists
  import opened LayerPlacement
  import opened CheckpointKeys
  import opened CheckpointStore
  import opened MergedFiles
  import opened LayerSaves

  // ---------------------------------------------------------------- the rows of a rank

  /** No two rows are for one layer or for one place. */
  lemma RowsDistinct(c: Config, rank: nat, i: nat, j: nat)
    requires Accepts(c) && rank < c.ppSize
    requires i < |RankRows(c, rank, c.numLayers)| && j < |RankRows(c, rank, c.numLayers)|
    ensures var a, b := RankRows(c, rank, c.numLayers)[i], RankRows(c, rank, c.numLayers)[j];
      a.layer == b.layer || (a.modelKey == b.modelKey && a.local == b.local) ==> i == j
  {
    var a, b := RankRows(c, rank, c.numLayers)[i], RankRows(c, rank, c.numLayers)[j];
    hide *;
    var s, x := SlotOfRow(c, rank, i);
    var t, y := SlotOfRow(c, rank, j);
    EntryMeans(c, s, x);
    EntryMeans(c, t, y);
    if a.layer == b.layer {
      StageUnique(Sizes(c), a.layer, s, x, t, y);
    }
    if a.modelKey == b.modelKey && a.local == b.local {
      SlotIdentified(c, s, t);
    }
  }

  lemma EntryMeans(c: Config, stage: nat, local: nat)
    requires Accepts(c) && stage < Slots(c)
    ensures EntryAt(c, stage, local).modelKey == ModelKey(c, stage) && EntryAt(c, stage, local).local == local
  {
  }

  // ---------------------------------------------------------------- the inputs of a rank

  /** What was loaded for the layer of a row, to be saved where the row says. */
  ghost predicate InputOf<V>(p: Parallel, row: Entry, l: LayerInput<V>) {
    Loaded(p, l) && l.layer == row.layer && l.expert.slot == row.local && l.expert.modelKey == row.modelKey
  }

  /** The model keys that `reset_ckpt_name` makes. */
  function ModelKeys(c: Config): set<string> {
    if c.schedular == DualPipeV then {"model0", "model1"} else {"model"}
  }

  /** The inputs of all layers of a rank, in the order of the table. */
  ghost predicate InputsOf<V>(c: Config, p: Parallel, rank: nat, inputs: seq<LayerInput<V>>) {
    && Accepts(c) && rank < c.ppSize && |inputs| == |RankRows(c, rank, c.numLayers)|
    && forall i :: 0 <= i < |inputs| ==> InputOf(p, RankRows(c, rank, c.numLayers)[i], inputs[i])
  }

  lemma InputAt<V>(c: Config, p: Parallel, rank: nat, inputs: seq<LayerInput<V>>, i: nat)
    requires InputsOf(c, p, rank, inputs) && i < |inputs|
    ensures Loaded(p, inputs[i]) && inputs[i].expert.modelKey in ModelKeys(c)
  {
    hide Loaded;
    var row := RankRows(c, rank, c.numLayers)[i];
    assert InputOf(p, row, inputs[i]);
    hide RankRows, Accepts;
    KeyOfRow(c, rank, i);
  }

  lemma KeyOfRow(c: Config, rank: nat, i: nat)
    requires Accepts(c) && rank < c.ppSize && i < |RankRows(c, rank, c.numLayers)|
    ensures RankRows(c, rank, c.numLayers)[i].modelKey in ModelKeys(c)
  {
    hide RankRows, Block, EntryAt;
    var s, x := SlotOfRow(c, rank, i);
    EntryMeans(c, s, x);
  }

  lemma InputsDistinct<V>(c: Config, p: Parallel, rank: nat, inputs: seq<LayerInput<V>>, i: nat, j: nat)
    requires InputsOf(c, p, rank, inputs) && i < |inputs| && j < |inputs| && i != j
    ensures inputs[i].layer != inputs[j].layer
    ensures inputs[i].expert.modelKey == inputs[j].expert.modelKey ==> inputs[i].expert.slot != inputs[j].expert.slot
  {
    RowsDistinct(c, rank, i, j);
    hide RankRows, Accepts, Loaded;
    assert InputOf(p, RankRows(c, rank, c.numLayers)[i], inputs[i]);
    assert InputOf(p, RankRows(c, rank, c.numLayers)[j], inputs[j]);
  }

  // ---------------------------------------------------------------- no two saves of a rank meet

  /** The saves of every layer. */
  ghost function AllSaves<V>(inputs: seq<LayerInput<V>>, numLayers: nat): (r: seq<seq<Save<V>>>)
    requires forall i :: 0 <= i < |inputs| ==> Shaped(inputs[i].expert) && Divides(inputs[i].expert)
    ensures |r| == |inputs|
  {
    seq(|inputs|, i requires 0 <= i < |inputs| => Saves(inputs[i], numLayers))
  }

  lemma AllSavable<V>(c: Config, p: Parallel, rank: nat, inputs: seq<LayerInput<V>>)
    requires InputsOf(c, p, rank, inputs)
    ensures forall i :: 0 <= i < |inputs| ==>
      Shaped(inputs[i].expert) && Divides(inputs[i].expert) && inputs[i].expert.p == p
  {
    hide *;
    forall i | 0 <= i < |inputs|
      ensures Shaped(inputs[i].expert) && Divides(inputs[i].expert) && inputs[i].expert.p == p
    {
      InputAt(c, p, rank, inputs, i);
      LoadedMeans(p, inputs[i]);
    }
  }

  /** Saves of different layers of a rank go under different names. */
  lemma NamesApart<V>(a: LayerInput<V>, b: LayerInput<V>, numLayers: nat, s: Save<V>, t: Save<V>)
    requires a.layer != b.layer && (a.expert.modelKey == b.expert.modelKey ==> a.expert.slot != b.expert.slot)
    requires SaveOf(a, numLayers, s) && SaveOf(b, numLayers, t)
    ensures (s.modelKey, s.name) != (t.modelKey, t.name)
  {
    OutsideNamesDiffer();
  }

  /** Every save of the joined lists comes from one of the layers. */
  lemma {:induction false} FromLayer<V>(lists: seq<seq<Save<V>>>, i: nat) returns (k: nat, j: nat)
    requires i < |Concat(lists)|
    ensures k < |lists| && j < |lists[k]| && lists[k][j] == Concat(lists)[i]
  {
    var n := |lists| - 1;
    if i < |Concat(lists[..n])| {
      k, j := FromLayer(lists[..n], i);
    } else {
      k, j := n, i - |Concat(lists[..n])|;
    }
  }

  /** The layers before one are apart from it. */
  lemma EarlierApart<V>(c: Config, p: Parallel, rank: nat, inputs: seq<LayerInput<V>>, n: nat)
    requires InputsOf(c, p, rank, inputs) && n < |inputs|
    requires forall i :: 0 <= i < |inputs| ==> Shaped(inputs[i].expert) && Divides(inputs[i].expert)
    ensures Apart(Concat(AllSaves(inputs, c.numLayers)[..n]), Saves(inputs[n], c.numLayers))
  {
    hide *;
    var all, last := AllSaves(inputs, c.numLayers), Saves(inputs[n], c.numLayers);
    var before := Concat(all[..n]);
    forall i, j | 0 <= i < |before| && 0 <= j < |last|
      ensures (before[i].modelKey, before[i].name) != (last[j].modelKey, last[j].name)
    {
      var k, x := FromLayer(all[..n], i);
      SavesAt(inputs, c.numLayers, k);
      SaveIsOwn(c, p, rank, inputs, k, x);
      SaveIsOwn(c, p, rank, inputs, n, j);
      InputsDistinct(c, p, rank, inputs, k, n);
      NamesApart(inputs[k], inputs[n], c.numLayers, before[i], last[j]);
    }
    ApartMeans(before, last);
  }

  lemma ApartMeans<V>(a: seq<Save<V>>, b: seq<Save<V>>)
    requires forall i, j :: 0 <= i < |a| && 0 <= j < |b| ==> (a[i].modelKey, a[i].name) != (b[j].modelKey, b[j].name)
    ensures Apart(a, b)
  {
  }

  lemma SavesAt<V>(inputs: seq<LayerInput<V>>, numLayers: nat, k: nat)
    requires k < |inputs| && forall i :: 0 <= i < |inputs| ==> Shaped(inputs[i].expert) && Divides(inputs[i].expert)
    ensures AllSaves(inputs, numLayers)[k] == Saves(inputs[k], numLayers)
  {
    hide Saves;
  }

  lemma SaveIsOwn<V>(c: Config, p: Parallel, rank: nat, inputs: seq<LayerInput<V>>, k: nat, x: nat)
    requires InputsOf(c, p, rank, inputs) && k < |inputs| && Shaped(inputs[k].expert) && Divides(inputs[k].expert)
    requires x < |Saves(inputs[k], c.numLayers)|
    ensures SaveOf(inputs[k], c.numLayers, Saves(inputs[k], c.numLayers)[x])
  {
    hide *;
    InputAt(c, p, rank, inputs, k);
    LoadedMeans(p, inputs[k]);
    SavesAreOwn(inputs[k], c.numLayers, x);
  }

  /** All saves of the first `n` layers fit every model rank. */
  lemma {:induction false} FirstLayersFit<V>(c: Config, p: Parallel, rank: nat, inputs: seq<LayerInput<V>>, n: nat,
      m: nat)
    requires InputsOf(c, p, rank, inputs) && n <= |inputs|
    requires forall i :: 0 <= i < |inputs| ==> Shaped(inputs[i].expert) && Divides(inputs[i].expert)
    ensures Fits(p, Concat(AllSaves(inputs, c.numLayers)[..n]), m, ModelKeys(c))
  {
    hide *;
    var all := AllSaves(inputs, c.numLayers);
    if n == 0 {
      NothingFits<V>(p, m, ModelKeys(c));
      NoLists(all);
    } else {
      FirstLayersFit(c, p, rank, inputs, n - 1, m);
      InputAt(c, p, rank, inputs, n - 1);
      LayerFits(p, inputs[n - 1], c.numLayers, m, ModelKeys(c));
      EarlierApart(c, p, rank, inputs, n - 1);
      SavesAt(inputs, c.numLayers, n - 1);
      ApartFits(p, Concat(all[..n - 1]), all[n - 1], m, ModelKeys(c));
      assert all[..n] == all[..n - 1] + [all[n - 1]];
      ConcatSnoc(all[..n - 1], all[n - 1]);
    }
  }

  lemma NoLists<T>(lists: seq<seq<T>>)
    ensures Concat(lists[..0]) == []
  {
  }

  // ---------------------------------------------------------------- converting and merging

  ghost predicate AllConvert<V>(rank: nat, files: Files<V>, inputs: seq<LayerInput<V>>, numLayers: nat)
    requires forall i :: 0 <= i < |inputs| ==> Shaped(inputs[i].expert)
  {
    forall i :: 0 <= i < |inputs| ==> LayerRun(rank, files, inputs[i], numLayers).Returned?
  }

  /** The files of every layer by itself. */
  ghost function Parts<V>(rank: nat, files: Files<V>, inputs: seq<LayerInput<V>>, numLayers: nat): (r: seq<Files<V>>)
    requires forall i :: 0 <= i < |inputs| ==> Shaped(inputs[i].expert)
    requires AllConvert(rank, files, inputs, numLayers)
    ensures |r| == |inputs|
    ensures forall i :: 0 <= i < |inputs| ==> r[i] == LayerRun(rank, files, inputs[i], numLayers).value
  {
    seq(|inputs|, i requires 0 <= i < |inputs| => LayerRun(rank, files, inputs[i], numLayers).value)
  }

  /** The loop of the driver over the layers of one rank, and the merge of their files. */
  method ConvertRank<V>(p: Parallel, rank: nat, files: Files<V>, inputs: seq<LayerInput<V>>, numLayers: nat)
    returns (r: Outcome<Files<V>>)
    requires forall i :: 0 <= i < |inputs| ==> Shaped(inputs[i].expert) && inputs[i].expert.p == p
    ensures r == if AllConvert(rank, files, inputs, numLayers) then Merged(Parts(rank, files, inputs, numLayers))
      else Raised
  {
    hide LayerRun, Merged, Shaped;
    var parts: seq<Files<V>> := [];
    for i := 0 to |inputs|
      invariant |parts| == i
      invariant forall k :: 0 <= k < i ==>
        LayerRun(rank, files, inputs[k], numLayers).Returned?
        && parts[k] == LayerRun(rank, files, inputs[k], numLayers).value
    {
      var checkpoint := new Checkpoint(p, rank, files);
      var done := ConvertLayer(checkpoint, inputs[i], numLayers);
      if done.Raised? {
        return Raised;
      }
      parts := parts + [checkpoint.files];
    }
    assert parts == Parts(rank, files, inputs, numLayers);
    r := MergeCheckpointDict(parts);
  }

  /** Every layer of the rank converts. */
  lemma LayerConverts<V>(c: Config, p: Parallel, rank: nat, files: Files<V>, inputs: seq<LayerInput<V>>, i: nat)
    requires InputsOf(c, p, rank, inputs) && p.tpe <= p.tp && rank < p.pp && Fresh(files, ModelKeys(c))
    requires i < |inputs| && Shaped(inputs[i].expert) && Divides(inputs[i].expert)
    ensures Run(p, rank, files, Saves(inputs[i], c.numLayers)).Returned?
    ensures LayerRun(rank, files, inputs[i], c.numLayers) == Run(p, rank, files, Saves(inputs[i], c.numLayers))
  {
    InputAt(c, p, rank, inputs, i);
    LoadedMeans(p, inputs[i]);
    hide Run, Saves, Fits, Active, Shaped, Divides, Loaded, InputsOf, Fresh, ModelKeys;
    RunStores(p, rank, files, ModelKeys(c), Saves(inputs[i], c.numLayers));
    forall m: nat | Active(p, rank, files, m)
      ensures Fits(p, Saves(inputs[i], c.numLayers), m, ModelKeys(c))
    {
      LayerFits(p, inputs[i], c.numLayers, m, ModelKeys(c));
    }
  }

  lemma RankFits<V>(c: Config, p: Parallel, rank: nat, files: Files<V>, inputs: seq<LayerInput<V>>)
    requires InputsOf(c, p, rank, inputs) && p.tpe <= p.tp && rank < p.pp && Fresh(files, ModelKeys(c))
    requires forall i :: 0 <= i < |inputs| ==> Shaped(inputs[i].expert) && Divides(inputs[i].expert)
    ensures var saves, r := Concat(AllSaves(inputs, c.numLayers)),
      Run(p, rank, files, Concat(AllSaves(inputs, c.numLayers)));
      r.Returned? && Holds(p, rank, r.value, files.Keys, ModelKeys(c), saves)
  {
    hide Run, AllSaves, Concat, Fits, Active, Shaped, Divides, InputsOf, Fresh, ModelKeys, Holds;
    var all := AllSaves(inputs, c.numLayers);
    assert all[..|inputs|] == all;
    RunStores(p, rank, files, ModelKeys(c), Concat(all));
    forall m: nat | Active(p, rank, files, m)
      ensures Fits(p, Concat(all), m, ModelKeys(c))
    {
      FirstLayersFit(c, p, rank, inputs, |inputs|, m);
    }
  }

  /** A rank with layers: converting them apart and merging never raises, and does what one conversion would do. */
  lemma RankConverts<V>(c: Config, p: Parallel, rank: nat, files: Files<V>, inputs: seq<LayerInput<V>>)
    requires InputsOf(c, p, rank, inputs) && p.tpe <= p.tp && rank < p.pp
    requires Fresh(files, ModelKeys(c)) && RankFiles(p, rank, files) && inputs != []
    ensures forall i :: 0 <= i < |inputs| ==> Shaped(inputs[i].expert) && Divides(inputs[i].expert)
    ensures AllConvert(rank, files, inputs, c.numLayers)
    ensures var r, saves := Merged(Parts(rank, files, inputs, c.numLayers)), Concat(AllSaves(inputs, c.numLayers));
      && r.Returned? && r == Run(p, rank, files, saves)
      && Holds(p, rank, r.value, files.Keys, ModelKeys(c), saves)
  {
    AllSavable(c, p, rank, inputs);
    hide Run, AllSaves, Concat, Shaped, Divides, InputsOf, Fresh, ModelKeys, Holds, Saves, LayerRun, RankFiles, Merged;
    var all := AllSaves(inputs, c.numLayers);
    forall i | 0 <= i < |inputs|
      ensures LayerRun(rank, files, inputs[i], c.numLayers).Returned?
      ensures Run(p, rank, files, all[i]).Returned?
      ensures LayerRun(rank, files, inputs[i], c.numLayers) == Run(p, rank, files, all[i])
    {
      SavesAt(inputs, c.numLayers, i);
      LayerConverts(c, p, rank, files, inputs, i);
    }
    assert Parts(rank, files, inputs, c.numLayers) == Converted(p, rank, files, all);
    MergeIsOneConversion(p, rank, files, ModelKeys(c), all);
    RankFits(c, p, rank, files, inputs);
  }

  /** A rank without layers gets no files at all. */
  lemma EmptyRank<V>(rank: nat, files: Files<V>, numLayers: nat)
    ensures AllConvert<V>(rank, files, [], numLayers)
    ensures Merged(Parts<V>(rank, files, [], numLayers)) == Returned(map[])
  {
    assert Parts<V>(rank, files, [], numLayers) == [];
  }

  /** What the merged files of a rank have: every save of every layer whose ranks include that of the file. */
  lemma SaveIsStored<V>(c: Config, p: Parallel, rank: nat, inputs: seq<LayerInput<V>>, k: nat, x: nat, m: nat)
    requires InputsOf(c, p, rank, inputs) && k < |inputs|
    requires forall i :: 0 <= i < |inputs| ==> Shaped(inputs[i].expert) && Divides(inputs[i].expert)
    requires x < |Saves(inputs[k], c.numLayers)| && Applies(p, Saves(inputs[k], c.numLayers)[x], m)
    ensures var s, d := Saves(inputs[k], c.numLayers)[x],
      Dict(p, Concat(AllSaves(inputs, c.numLayers)), m, inputs[k].expert.modelKey);
      && Piece(s, TargetAt(p, 0, m)).Some? && s.modelKey == inputs[k].expert.modelKey
      && s.name in d && d[s.name] == Piece(s, TargetAt(p, 0, m)).value
  {
    hide *;
    var all := AllSaves(inputs, c.numLayers);
    assert all[..|inputs|] == all;
    FirstLayersFit(c, p, rank, inputs, |inputs|, m);
    SavesAt(inputs, c.numLayers, k);
    var i := InConcat(all, k, x);
    SaveIsOwn(c, p, rank, inputs, k, x);
    SaveOfMeans(inputs[k], c.numLayers, all[k][x]);
    DictValue(p, Concat(all), m, ModelKeys(c), i);
  }

  lemma SaveOfMeans<V>(l: LayerInput<V>, numLayers: nat, s: Save<V>)
    requires SaveOf(l, numLayers, s)
    ensures s.modelKey == l.expert.modelKey
  {
  }

  lemma {:induction false} InConcat<T>(lists: seq<seq<T>>, k: nat, x: nat) returns (i: nat)
    requires k < |lists| && x < |lists[k]|
    ensures i < |Concat(lists)| && Concat(lists)[i] == lists[k][x]
  {
    var n := |lists| - 1;
    if k < n {
      i := InConcat(lists[..n], k, x);
    } else {
      i := |Concat(lists[..n])| + x;
    }
  }

  /** They have nothing else: every name is that of a save of one of the rank's layers. */
  lemma NothingElseStored<V>(c: Config, p: Parallel, rank: nat, inputs: seq<LayerInput<V>>, m: nat, modelKey: string,
      name: Name) returns (k: nat, x: nat)
    requires InputsOf(c, p, rank, inputs)
    requires forall i :: 0 <= i < |inputs| ==> Shaped(inputs[i].expert) && Divides(inputs[i].expert)
    requires name in Dict(p, Concat(AllSaves(inputs, c.numLayers)), m, modelKey)
    ensures k < |inputs| && x < |Saves(inputs[k], c.numLayers)|
    ensures var s := Saves(inputs[k], c.numLayers)[x];
      Applies(p, s, m) && s.name == name && s.modelKey == modelKey && inputs[k].expert.modelKey == modelKey
  {
    hide Dict, Concat, AllSaves, Saves, Applies, Piece, InputsOf, Shaped, Divides, SaveOf;
    var all := AllSaves(inputs, c.numLayers);
    DictNames(p, Concat(all), m, modelKey, name);
    var j: nat :| j < |Concat(all)| && Applies(p, Concat(all)[j], m) && Concat(all)[j].modelKey == modelKey
      && Concat(all)[j].name == name;
    k, x := FromLayer(all, j);
    SavesAt(inputs, c.numLayers, k);
    SaveIsOwn(c, p, rank, inputs, k, x);
    SaveOfMeans(inputs[k], c.numLayers, all[k][x]);
  }
}
