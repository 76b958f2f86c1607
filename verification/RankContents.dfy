/** What the files of a pipeline rank hold of every layer after converting and merging. */
module RankContents {
  import opened Lists
  import opened LayerPlacement
  import opened CheckpointKeys
  import opened CheckpointStore
  import opened FileContents
  import opened Experts
  import opened MergedFiles
  import opened LayerSaves
  import opened WholeRanks

  /** The parts of a layer in the file `k` of model rank `m`. */
  ghost predicate LayerIn<V>(p: Parallel, l: LayerInput<V>, numLayers: nat, k: Key, m: nat, d: map<Name, V>)
    requires |l.expert.experts| / p.ep > 0 || l.expert.experts == []
  {
    && (l.layer == 0 ==> TensorPart(d, Outside("embedding.word_embeddings.weight"), l.embedding, k.tp))
    && (l.layer + 1 == numLayers ==> WholePart(d, Outside("decoder.final_layernorm.weight"), l.finalNorm))
    && (l.layer + 1 == numLayers && l.outputLayer.Some? ==>
      TensorPart(d, Outside("output_layer.weight"), l.outputLayer.value, k.tp))
    && (forall i :: 0 <= i < |l.own| ==> OwnPart(d, l.expert.slot, l.own[i], k.tp))
    && (forall idx, x :: 0 <= idx < |l.expert.experts| && 0 <= x < |l.expert.params| && x < |l.expert.experts[idx]| ==>
      ExpertIn(d, p, l.expert, idx, x, m))
  }

  ghost predicate TensorPart<V>(d: map<Name, V>, name: Name, parts: seq<V>, rank: nat) {
    rank < |parts| && name in d && d[name] == parts[rank]
  }

  ghost predicate WholePart<V>(d: map<Name, V>, name: Name, whole: V) {
    name in d && d[name] == whole
  }

  ghost predicate OwnPart<V>(d: map<Name, V>, slot: nat, param: Param<V>, rank: nat) {
    match param.content
    case Copy(whole) => WholePart(d, InLayer(slot, param.name), whole)
    case Tp(parts) => TensorPart(d, InLayer(slot, param.name), parts, rank)
    case Ep(_, _) => true
  }

  /** Expert `idx` is local to the group of rank `m` if it is among that group's `n`; then its shard is there. */
  ghost predicate ExpertIn<V>(d: map<Name, V>, p: Parallel, l: Layer<V>, idx: nat, x: nat, m: nat)
    requires |l.experts| / p.ep > 0 && idx < |l.experts| && x < |l.params| && x < |l.experts[idx]|
  {
    var n := |l.experts| / p.ep;
    idx / n == (m / p.tpe) % p.ep ==> TensorPart(d, Expert(l.slot, idx % n, l.params[x]), l.experts[idx][x], m % p.tpe)
  }

  lemma SaveInFile<V>(p: Parallel, l: LayerInput<V>, numLayers: nat, saves: seq<Save<V>>, s: Save<V>, k: Key, m: nat,
      file: map<string, map<Name, V>>)
    requires WellFormed(l.expert) && Shaped(l.expert) && Divides(l.expert)
    requires s in Saves(l, numLayers) && (forall t :: t in Saves(l, numLayers) ==> t in saves)
    requires FileIs(p, saves, k, m, file) && Receives(p, s, m)
    ensures HasPart(p, s, k, m, file)
  {
    hide Saves, Receives, HasPart, Shaped, Divides, WellFormed;
    assert s in saves;
    var j :| 0 <= j < |saves| && saves[j] == s;
  }

  /** If the file has the parts of all saves of the layer, it has the parts of the layer. */
  lemma LayerPartsIn<V>(p: Parallel, l: LayerInput<V>, numLayers: nat, saves: seq<Save<V>>, k: Key, m: nat,
      file: map<string, map<Name, V>>)
    requires Loaded(p, l) && Shaped(l.expert) && (forall t :: t in Saves(l, numLayers) ==> t in saves)
    requires FileIs(p, saves, k, m, file) && l.expert.modelKey in file
    ensures LayerIn(p, l, numLayers, k, m, file[l.expert.modelKey])
  {
    LoadedMeans(p, l);
    OutsideIn(p, l, numLayers, saves, k, m, file);
    OwnIn(p, l, numLayers, saves, k, m, file);
    ExpertsIn(p, l, numLayers, saves, k, m, file);
    hide Saves, Loaded, FileIs, WellFormed, Shaped, TensorPart, WholePart, OwnPart, ExpertIn;
  }

  lemma OutsideIn<V>(p: Parallel, l: LayerInput<V>, numLayers: nat, saves: seq<Save<V>>, k: Key, m: nat,
      file: map<string, map<Name, V>>)
    requires Loaded(p, l) && Shaped(l.expert) && (forall t :: t in Saves(l, numLayers) ==> t in saves)
    requires FileIs(p, saves, k, m, file) && l.expert.modelKey in file
    ensures var d := file[l.expert.modelKey];
      && (l.layer == 0 ==> TensorPart(d, Outside("embedding.word_embeddings.weight"), l.embedding, k.tp))
      && (l.layer + 1 == numLayers ==> WholePart(d, Outside("decoder.final_layernorm.weight"), l.finalNorm))
      && (l.layer + 1 == numLayers && l.outputLayer.Some? ==>
        TensorPart(d, Outside("output_layer.weight"), l.outputLayer.value, k.tp))
  {
    LoadedMeans(p, l);
    hide Saves, Loaded, FileIs, WellFormed, Shaped, Divides, SavesOwn, SavesExpert;
    var s := Save(Tp(l.embedding), l.expert.modelKey, Outside("embedding.word_embeddings.weight"));
    SavesOfLayer(l, numLayers, s);
    if l.layer == 0 {
      SaveInFile(p, l, numLayers, saves, s, k, m, file);
    }
    if l.layer + 1 == numLayers {
      s := Save(Copy(l.finalNorm), l.expert.modelKey, Outside("decoder.final_layernorm.weight"));
      SavesOfLayer(l, numLayers, s);
      SaveInFile(p, l, numLayers, saves, s, k, m, file);
      if l.outputLayer.Some? {
        s := Save(Tp(l.outputLayer.value), l.expert.modelKey, Outside("output_layer.weight"));
        SavesOfLayer(l, numLayers, s);
        SaveInFile(p, l, numLayers, saves, s, k, m, file);
      }
    }
  }

  lemma OwnIn<V>(p: Parallel, l: LayerInput<V>, numLayers: nat, saves: seq<Save<V>>, k: Key, m: nat,
      file: map<string, map<Name, V>>)
    requires Loaded(p, l) && Shaped(l.expert) && (forall t :: t in Saves(l, numLayers) ==> t in saves)
    requires FileIs(p, saves, k, m, file) && l.expert.modelKey in file
    ensures forall i :: 0 <= i < |l.own| ==> OwnPart(file[l.expert.modelKey], l.expert.slot, l.own[i], k.tp)
  {
    LoadedMeans(p, l);
    hide Saves, Loaded, FileIs, WellFormed, Shaped, Divides, SavesExpert;
    forall i | 0 <= i < |l.own|
      ensures OwnPart(file[l.expert.modelKey], l.expert.slot, l.own[i], k.tp)
    {
      var s := Save(l.own[i].content, l.expert.modelKey, InLayer(l.expert.slot, l.own[i].name));
      assert SavesOwn(l, s, i);
      SavesOfLayer(l, numLayers, s);
      if !s.content.Ep? {
        SaveInFile(p, l, numLayers, saves, s, k, m, file);
      }
    }
  }

  lemma ExpertsIn<V>(p: Parallel, l: LayerInput<V>, numLayers: nat, saves: seq<Save<V>>, k: Key, m: nat,
      file: map<string, map<Name, V>>)
    requires Loaded(p, l) && Shaped(l.expert) && (forall t :: t in Saves(l, numLayers) ==> t in saves)
    requires FileIs(p, saves, k, m, file) && l.expert.modelKey in file
    ensures |l.expert.experts| / p.ep > 0 || l.expert.experts == []
    ensures forall idx, x ::
      0 <= idx < |l.expert.experts| && 0 <= x < |l.expert.params| && x < |l.expert.experts[idx]| ==>
      ExpertIn(file[l.expert.modelKey], p, l.expert, idx, x, m)
  {
    LoadedMeans(p, l);
    var e := l.expert;
    assert |e.experts| / p.ep > 0 || e.experts == [];
    hide Saves, Loaded, FileIs, WellFormed, Shaped, Divides, SavesOwn;
    forall idx, x | 0 <= idx < |e.experts| && 0 <= x < |e.params| && x < |e.experts[idx]|
      ensures ExpertIn(file[e.modelKey], p, e, idx, x, m)
    {
      var n := |e.experts| / e.p.ep;
      var s := Save(Ep(idx / n, e.experts[idx][x]), e.modelKey, Expert(e.slot, idx % n, e.params[x]));
      assert SavesExpert(e, s, idx, x);
      SavesOfLayer(l, numLayers, s);
      if idx / n == (m / p.tpe) % p.ep {
        SaveInFile(p, l, numLayers, saves, s, k, m, file);
      }
    }
  }

  /**
   * Converting and merging the layers of a rank puts into the file `k` of model rank `m`, for every layer: its own
   * parameters, whole or the part of the tensor rank in the file's name; the embedding with the first layer, the final
   * norm and the output layer with the last; and the shards of the experts of the rank's group.
   */
  lemma LayerStored<V>(c: Config, p: Parallel, rank: nat, files: Files<V>, inputs: seq<LayerInput<V>>, i: nat, k: Key,
      m: nat)
    requires InputsOf(c, p, rank, inputs) && p.tpe <= p.tp && rank < p.pp
    requires Fresh(files, ModelKeys(c)) && RankFiles(p, rank, files)
    requires i < |inputs| && k in files && IsKeyOf(p, rank, m, k)
    ensures forall j :: 0 <= j < |inputs| ==> Shaped(inputs[j].expert) && Divides(inputs[j].expert)
    ensures AllConvert(rank, files, inputs, c.numLayers)
    ensures |inputs[i].expert.experts| / p.ep > 0 || inputs[i].expert.experts == []
    ensures var r := Merged(Parts(rank, files, inputs, c.numLayers));
      && r.Returned? && k in r.value && inputs[i].expert.modelKey in r.value[k]
      && LayerIn(p, inputs[i], c.numLayers, k, m, r.value[k][inputs[i].expert.modelKey])
  {
    hide *;
    RankConverts(c, p, rank, files, inputs);
    RankFits(c, p, rank, files, inputs);
    var saves := Concat(AllSaves(inputs, c.numLayers));
    RunContents(p, rank, files, ModelKeys(c), saves, k, m);
    InputAt(c, p, rank, inputs, i);
    SavesConcat(inputs, c.numLayers, i);
    ExpertsDivide(p, inputs[i]);
    var file := Run(p, rank, files, saves).value[k];
    LayerPartsIn(p, inputs[i], c.numLayers, saves, k, m, file);
  }

  lemma ExpertsDivide<V>(p: Parallel, l: LayerInput<V>)
    requires Loaded(p, l)
    ensures |l.expert.experts| / p.ep > 0 || l.expert.experts == []
  {
  }

  lemma SavesConcat<V>(inputs: seq<LayerInput<V>>, numLayers: nat, i: nat)
    requires forall j :: 0 <= j < |inputs| ==> Shaped(inputs[j].expert) && Divides(inputs[j].expert)
    requires i < |inputs|
    ensures forall s :: s in Saves(inputs[i], numLayers) ==> s in Concat(AllSaves(inputs, numLayers))
  {
    hide *;
    SavesAt(inputs, numLayers, i);
    forall s | s in Saves(inputs[i], numLayers)
      ensures s in Concat(AllSaves(inputs, numLayers))
    {
      var x :| 0 <= x < |Saves(inputs[i], numLayers)| && Saves(inputs[i], numLayers)[x] == s;
      var j := InConcat(AllSaves(inputs, numLayers), i, x);
    }
  }
}
