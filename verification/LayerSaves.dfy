/** `convert_layer`: everything a layer puts into the files of its pipeline rank. */
module LayerSaves {
  import opened Wrappers
  import opened CheckpointKeys
  import opened CheckpointStore
  import opened Experts
  import opened MergedFiles

  /** A parameter under the name it is stored by, with the value its source operation gives. */
  datatype Param<V> = Param(name: string, content: Content<V>)

  /**
   * What is loaded for a layer: its own parameters, its experts, and the values of the files `pre` and `post`, which
   * are opened for the first and the last layer only. Without an output layer the embedding is tied to it.
   */
  datatype LayerInput<V> = LayerInput(layer: nat, own: seq<Param<V>>, expert: Layer<V>, embedding: seq<V>, finalNorm: V,
      outputLayer: Option<seq<V>>)

  const Embedding: string := "embedding.word_embeddings.weight"
  const FinalNorm: string := "decoder.final_layernorm.weight"
  const OutputLayer: string := "output_layer.weight"

  function SaveOutside<V>(l: LayerInput<V>, content: Content<V>, name: string): Save<V> {
    Save(content, l.expert.modelKey, Outside(name))
  }

  function PreSaves<V>(l: LayerInput<V>): seq<Save<V>> {
    if l.layer == 0 then [SaveOutside(l, Tp(l.embedding), Embedding)] else []
  }

  function PostSaves<V>(l: LayerInput<V>, numLayers: nat): seq<Save<V>> {
    if l.layer + 1 != numLayers then []
    else
      [SaveOutside(l, Copy(l.finalNorm), FinalNorm)]
      + if l.outputLayer.None? then [] else [SaveOutside(l, Tp(l.outputLayer.value), OutputLayer)]
  }

  function OwnSave<V>(l: LayerInput<V>, param: Param<V>): Save<V> {
    Save(param.content, l.expert.modelKey, InLayer(l.expert.slot, param.name))
  }

  function OwnSaves<V>(l: LayerInput<V>, count: nat): (r: seq<Save<V>>)
    requires count <= |l.own|
    ensures |r| == count && forall i :: 0 <= i < count ==> r[i] == OwnSave(l, l.own[i])
  {
    if count == 0 then [] else OwnSaves(l, count - 1) + [OwnSave(l, l.own[count - 1])]
  }

  /** There are no experts, or at least as many as expert groups. */
  predicate Divides<V>(l: Layer<V>) {
    l.experts == [] || LocalExperts(l) > 0
  }

  /** Every expert has all parameters. */
  ghost predicate Shaped<V>(l: Layer<V>) {
    forall idx :: 0 <= idx < |l.experts| ==> |l.experts[idx]| == |l.params|
  }

  function ExpertPart<V>(l: Layer<V>): seq<Save<V>>
    requires Shaped(l) && Divides(l)
  {
    if l.experts == [] then [] else ExpertSaves(l, |l.experts|)
  }

  /** All operations of a layer in order. */
  function Saves<V>(l: LayerInput<V>, numLayers: nat): seq<Save<V>>
    requires Shaped(l.expert) && Divides(l.expert)
  {
    PreSaves(l) + PostSaves(l, numLayers) + OwnSaves(l, |l.own|) + ExpertPart(l.expert)
  }

  /** The lists `convert_layer` collects before it executes anything. */
  method CollectSaves<V>(l: LayerInput<V>, numLayers: nat) returns (r: Outcome<seq<Save<V>>>)
    requires Shaped(l.expert)
    ensures r.Returned? <==> Divides(l.expert)
    ensures r.Returned? ==> r.value == Saves(l, numLayers)
  {
    NoLocalExperts(l.expert);
    hide LocalExperts, ExpertSaves;
    var operations: seq<Save<V>> := [];
    if l.layer == 0 {
      operations := operations + [SaveOutside(l, Tp(l.embedding), Embedding)];
    }
    if l.layer + 1 == numLayers {
      operations := operations + [SaveOutside(l, Copy(l.finalNorm), FinalNorm)];
      if l.outputLayer.Some? {
        operations := operations + [SaveOutside(l, Tp(l.outputLayer.value), OutputLayer)];
      }
    }
    assert operations == PreSaves(l) + PostSaves(l, numLayers);
    for i := 0 to |l.own|
      invariant operations == PreSaves(l) + PostSaves(l, numLayers) + OwnSaves(l, i)
    {
      operations := operations + [Save(l.own[i].content, l.expert.modelKey, InLayer(l.expert.slot, l.own[i].name))];
    }
    var experts :- CollectExpertSaves(l.expert);
    r := Returned(operations + experts);
  }

  /** What `convert_layer` does to the files. */
  function LayerRun<V>(ppRank: nat, files: Files<V>, l: LayerInput<V>, numLayers: nat): Outcome<Files<V>>
    requires Shaped(l.expert)
  {
    if Divides(l.expert) then Run(l.expert.p, ppRank, files, Saves(l, numLayers)) else Raised
  }

  /** `convert_layer`, without the checks of the loaded names and the regrouping of expert weights. */
  method ConvertLayer<V>(checkpoint: Checkpoint<V>, l: LayerInput<V>, numLayers: nat) returns (r: Outcome<()>)
    requires l.expert.p == checkpoint.p && Shaped(l.expert)
    modifies checkpoint`files
    ensures var after := LayerRun(checkpoint.ppRank, old(checkpoint.files), l, numLayers);
      (r.Returned? <==> after.Returned?) && (r.Returned? ==> checkpoint.files == after.value)
  {
    hide Run, Saves, Divides;
    var operations :- CollectSaves(l, numLayers);
    r := checkpoint.ExecuteAll(operations);
  }

  // ---------------------------------------------------------------- one layer never fails

  /** Every value is a whole, or was split for every tensor or expert-tensor rank; names are keys of a dictionary. */
  ghost predicate Loaded<V>(p: Parallel, l: LayerInput<V>) {
    && l.expert.p == p && WellFormed(l.expert) && Divides(l.expert)
    && |l.embedding| == p.tp && (l.outputLayer.Some? ==> |l.outputLayer.value| == p.tp)
    && (forall i :: 0 <= i < |l.own| ==>
      l.own[i].content.Copy? || (l.own[i].content.Tp? && |l.own[i].content.parts| == p.tp))
    && (forall i, j :: 0 <= i < j < |l.own| ==> l.own[i].name != l.own[j].name)
  }

  /** No two saves of the lists go under one name. */
  ghost predicate Apart<V>(a: seq<Save<V>>, b: seq<Save<V>>) {
    forall i, j :: 0 <= i < |a| && 0 <= j < |b| ==> (a[i].modelKey, a[i].name) != (b[j].modelKey, b[j].name)
  }

  lemma ApartFits<V>(p: Parallel, a: seq<Save<V>>, b: seq<Save<V>>, m: nat, modelKeys: set<string>)
    requires Fits(p, a, m, modelKeys) && Fits(p, b, m, modelKeys) && Apart(a, b)
    ensures Fits(p, a + b, m, modelKeys)
  {
    hide Fits, Applies;
    FitsConcat(p, a, b, m, modelKeys);
    forall i: nat, j: nat
      ensures !Meet(p, a, b, m, i, j)
    {
    }
  }

  lemma PreFits<V>(p: Parallel, l: LayerInput<V>, m: nat, modelKeys: set<string>)
    requires Loaded(p, l) && l.expert.modelKey in modelKeys
    ensures Fits(p, PreSaves(l), m, modelKeys)
  {
  }

  lemma PostFits<V>(p: Parallel, l: LayerInput<V>, numLayers: nat, m: nat, modelKeys: set<string>)
    requires Loaded(p, l) && l.expert.modelKey in modelKeys
    ensures Fits(p, PostSaves(l, numLayers), m, modelKeys)
  {
    assert FinalNorm[0] != OutputLayer[0];
  }

  lemma OwnFits<V>(p: Parallel, l: LayerInput<V>, m: nat, modelKeys: set<string>)
    requires Loaded(p, l) && l.expert.modelKey in modelKeys
    ensures Fits(p, OwnSaves(l, |l.own|), m, modelKeys)
  {
    hide OwnSaves, WellFormed, Divides, Applies;
  }

  lemma ExpertPartFits<V>(p: Parallel, l: LayerInput<V>, m: nat, modelKeys: set<string>)
    requires Loaded(p, l) && l.expert.modelKey in modelKeys
    ensures Fits(p, ExpertPart(l.expert), m, modelKeys)
  {
    hide Fits, WellFormed;
    if l.expert.experts == [] {
      NothingFits<V>(p, m, modelKeys);
    } else {
      ExpertsFit(l.expert, m, modelKeys);
    }
  }

  lemma NothingFits<V>(p: Parallel, m: nat, modelKeys: set<string>)
    ensures Fits<V>(p, [], m, modelKeys)
  {
  }

  /** The save of a layer: under its model key, and under a name that only this layer uses. */
  ghost predicate SaveOf<V>(l: LayerInput<V>, numLayers: nat, s: Save<V>) {
    s.modelKey == l.expert.modelKey && NameOf(l, numLayers, s.name)
  }

  ghost predicate NameOf<V>(l: LayerInput<V>, numLayers: nat, name: Name) {
    match name
    case Expert(layer, _, _) => layer == l.expert.slot
    case InLayer(layer, _) => layer == l.expert.slot
    case Outside(param) =>
      (param == Embedding && l.layer == 0) || ((param == FinalNorm || param == OutputLayer) && l.layer + 1 == numLayers)
  }

  /** A save under a name outside the layers. */
  ghost predicate OutsideSave<V>(l: LayerInput<V>, s: Save<V>, param: string) {
    s.modelKey == l.expert.modelKey && s.name == Outside(param)
  }

  lemma PreNames<V>(l: LayerInput<V>, i: nat)
    requires i < |PreSaves(l)|
    ensures l.layer == 0 && OutsideSave(l, PreSaves(l)[i], Embedding)
  {
  }

  lemma PostNames<V>(l: LayerInput<V>, numLayers: nat, i: nat)
    requires i < |PostSaves(l, numLayers)|
    ensures l.layer + 1 == numLayers
    ensures OutsideSave(l, PostSaves(l, numLayers)[i], FinalNorm)
      || OutsideSave(l, PostSaves(l, numLayers)[i], OutputLayer)
  {
    if i == 0 {
      assert PostSaves(l, numLayers)[i] == SaveOutside(l, Copy(l.finalNorm), FinalNorm);
    } else {
      assert PostSaves(l, numLayers)[i] == SaveOutside(l, Tp(l.outputLayer.value), OutputLayer);
    }
  }

  lemma OwnNames<V>(l: LayerInput<V>, i: nat)
    requires i < |l.own|
    ensures OwnSaves(l, |l.own|)[i].modelKey == l.expert.modelKey
    ensures OwnSaves(l, |l.own|)[i].name == InLayer(l.expert.slot, l.own[i].name)
  {
    hide OwnSaves;
  }

  lemma ExpertNames<V>(l: Layer<V>, i: nat)
    requires WellFormed(l) && Shaped(l) && Divides(l) && i < |ExpertPart(l)|
    ensures ExpertPart(l)[i].modelKey == l.modelKey && ExpertPart(l)[i].name.Expert?
      && ExpertPart(l)[i].name.layer == l.slot
  {
    var idx, k := SaveAt(l, |l.experts|, i);
  }

  lemma OutsideNamesDiffer()
    ensures Embedding != FinalNorm && Embedding != OutputLayer && FinalNorm != OutputLayer
  {
    assert Embedding[0] == 'e' && FinalNorm[0] == 'd' && OutputLayer[0] == 'o';
  }

  /** The four lists go under names of four kinds. */
  lemma ListsApart<V>(l: LayerInput<V>, numLayers: nat)
    requires WellFormed(l.expert) && Shaped(l.expert) && Divides(l.expert)
    ensures var pre, post, own, experts :=
      PreSaves(l), PostSaves(l, numLayers), OwnSaves(l, |l.own|), ExpertPart(l.expert);
      Apart(pre, post) && Apart(pre + post, own) && Apart(pre + post + own, experts)
  {
    OutsideNamesDiffer();
    hide PreSaves, PostSaves, OwnSaves, ExpertPart, WellFormed, Shaped, Divides;
    var pre, post, own, experts :=
      PreSaves(l), PostSaves(l, numLayers), OwnSaves(l, |l.own|), ExpertPart(l.expert);
    forall i: nat | i < |pre|
      ensures OutsideSave(l, pre[i], Embedding)
    {
      PreNames(l, i);
    }
    forall i: nat | i < |post|
      ensures OutsideSave(l, post[i], FinalNorm) || OutsideSave(l, post[i], OutputLayer)
    {
      PostNames(l, numLayers, i);
    }
    forall i: nat | i < |own|
      ensures own[i].name.InLayer?
    {
      OwnNames(l, i);
    }
    forall i: nat | i < |experts|
      ensures experts[i].name.Expert?
    {
      ExpertNames(l.expert, i);
    }
  }

  /** No two saves of a layer meet, so they all fit. */
  lemma LayerFits<V>(p: Parallel, l: LayerInput<V>, numLayers: nat, m: nat, modelKeys: set<string>)
    requires Loaded(p, l) && l.expert.modelKey in modelKeys
    ensures Shaped(l.expert) && Divides(l.expert) && Fits(p, Saves(l, numLayers), m, modelKeys)
  {
    LoadedMeans(p, l);
    hide Fits, PreSaves, PostSaves, OwnSaves, ExpertPart, WellFormed, Loaded, Shaped, Divides, Apart;
    PreFits(p, l, m, modelKeys);
    PostFits(p, l, numLayers, m, modelKeys);
    OwnFits(p, l, m, modelKeys);
    ExpertPartFits(p, l, m, modelKeys);
    ListsApart(l, numLayers);
    var pre, post, own, experts :=
      PreSaves(l), PostSaves(l, numLayers), OwnSaves(l, |l.own|), ExpertPart(l.expert);
    ApartFits(p, pre, post, m, modelKeys);
    ApartFits(p, pre + post, own, m, modelKeys);
    ApartFits(p, pre + post + own, experts, m, modelKeys);
  }

  lemma LoadedMeans<V>(p: Parallel, l: LayerInput<V>)
    requires Loaded(p, l)
    ensures WellFormed(l.expert) && Shaped(l.expert) && Divides(l.expert) && l.expert.p == p
  {
  }

  /** Every save of a layer goes under a name that only this layer uses. */
  lemma SavesAreOwn<V>(l: LayerInput<V>, numLayers: nat, i: nat)
    requires WellFormed(l.expert) && Shaped(l.expert) && Divides(l.expert) && i < |Saves(l, numLayers)|
    ensures SaveOf(l, numLayers, Saves(l, numLayers)[i])
  {
    hide PreSaves, PostSaves, OwnSaves, ExpertPart, WellFormed, Shaped, Divides;
    var pre, post, own := |PreSaves(l)|, |PostSaves(l, numLayers)|, |l.own|;
    if i < pre {
      PreNames(l, i);
    } else if i < pre + post {
      PostNames(l, numLayers, i - pre);
    } else if i < pre + post + own {
      OwnNames(l, i - pre - post);
    } else {
      ExpertNames(l.expert, i - pre - post - own);
    }
  }

  // ---------------------------------------------------------------- which saves these are

  /** The save is that of one of the layer's own parameters. */
  ghost predicate SavesOwn<V>(l: LayerInput<V>, s: Save<V>, i: nat) {
    i < |l.own| && s == Save(l.own[i].content, l.expert.modelKey, InLayer(l.expert.slot, l.own[i].name))
  }

  /** The save is that of a parameter of an expert, which goes to the expert's group. */
  ghost predicate SavesExpert<V>(l: Layer<V>, s: Save<V>, idx: nat, k: nat)
    requires l.experts == [] || |l.experts| / l.p.ep > 0
  {
    && idx < |l.experts| && k < |l.params| && k < |l.experts[idx]|
    && var n := |l.experts| / l.p.ep;
       s == Save(Ep(idx / n, l.experts[idx][k]), l.modelKey, Expert(l.slot, idx % n, l.params[k]))
  }

  lemma PreIs<V>(l: LayerInput<V>, s: Save<V>)
    ensures s in PreSaves(l) <==>
      l.layer == 0 && s == Save(Tp(l.embedding), l.expert.modelKey, Outside("embedding.word_embeddings.weight"))
  {
  }

  lemma PostIs<V>(l: LayerInput<V>, numLayers: nat, s: Save<V>)
    ensures s in PostSaves(l, numLayers) <==>
      (l.layer + 1 == numLayers
       && (|| s == Save(Copy(l.finalNorm), l.expert.modelKey, Outside("decoder.final_layernorm.weight"))
           || (l.outputLayer.Some?
              && s == Save(Tp(l.outputLayer.value), l.expert.modelKey, Outside("output_layer.weight")))))
  {
  }

  lemma OwnIs<V>(l: LayerInput<V>, s: Save<V>)
    ensures s in OwnSaves(l, |l.own|) <==> exists i: nat :: SavesOwn(l, s, i)
  {
    if s in OwnSaves(l, |l.own|) {
      var i :| 0 <= i < |OwnSaves(l, |l.own|)| && OwnSaves(l, |l.own|)[i] == s;
      assert SavesOwn(l, s, i);
    }
    if i: nat :| SavesOwn(l, s, i) {
      assert OwnSaves(l, |l.own|)[i] == s;
    }
  }

  lemma ExpertIs<V>(l: Layer<V>, s: Save<V>)
    requires WellFormed(l) && Shaped(l) && Divides(l)
    ensures s in ExpertPart(l) <==> exists idx: nat, k: nat :: SavesExpert(l, s, idx, k)
  {
    if s in ExpertPart(l) {
      var j :| 0 <= j < |ExpertPart(l)| && ExpertPart(l)[j] == s;
      var idx, k := SaveAt(l, |l.experts|, j);
      assert SavesExpert(l, s, idx, k);
    }
    if idx: nat, k: nat :| SavesExpert(l, s, idx, k) {
      SaveIsThere(l, |l.experts|, idx, k);
    }
  }

  /**
   * A layer saves the embedding if it is the first, the final norm and the output layer if it is the last, each of its
   * own parameters and each parameter of its experts, each with its own content, and nothing else.
   */
  lemma SavesOfLayer<V>(l: LayerInput<V>, numLayers: nat, s: Save<V>)
    requires WellFormed(l.expert) && Shaped(l.expert) && Divides(l.expert)
    ensures s in Saves(l, numLayers) <==>
      (|| (l.layer == 0 && s == Save(Tp(l.embedding), l.expert.modelKey, Outside("embedding.word_embeddings.weight")))
       || (l.layer + 1 == numLayers
          && (|| s == Save(Copy(l.finalNorm), l.expert.modelKey, Outside("decoder.final_layernorm.weight"))
              || (l.outputLayer.Some?
                 && s == Save(Tp(l.outputLayer.value), l.expert.modelKey, Outside("output_layer.weight")))))
       || (exists i: nat :: SavesOwn(l, s, i))
       || (exists idx: nat, k: nat :: SavesExpert(l.expert, s, idx, k)))
  {
    hide PreSaves, PostSaves, OwnSaves, ExpertPart, WellFormed, SavesOwn, SavesExpert, Shaped;
    PreIs(l, s);
    PostIs(l, numLayers, s);
    OwnIs(l, s);
    ExpertIs(l.expert, s);
  }
}
