/** The experts of a layer: which file and local name every expert shard gets. */
module Experts {
  import opened Wrappers
  import opened Arithmetic
  import opened CheckpointKeys
  import opened CheckpointStore

  /** The shards of every parameter of every expert: `experts[idx][k][t]`. */
  type Weights<V> = seq<seq<seq<V>>>

  /**
   * The expert parameters of a layer, with the layer's index in its slot: `params` are the keys of a dictionary,
     so they
   * differ.
   */
  datatype Layer<V> = Layer(p: Parallel, modelKey: string, slot: nat, params: seq<string>, experts: Weights<V>)

  /** Every parameter of every expert was split into `tpe` shards. */
  ghost predicate WellFormed<V>(l: Layer<V>) {
    && (forall i, j :: 0 <= i < j < |l.params| ==> l.params[i] != l.params[j])
    && (forall idx :: 0 <= idx < |l.experts| ==> |l.experts[idx]| == |l.params|)
    && (forall idx, k :: 0 <= idx < |l.experts| && 0 <= k < |l.params| ==> |l.experts[idx][k]| == l.p.tpe)
  }

  function LocalExperts<V>(l: Layer<V>): nat {
    |l.experts| / l.p.ep
  }

  function ExpertSave<V>(l: Layer<V>, idx: nat, k: nat): Save<V>
    requires LocalExperts(l) > 0 && idx < |l.experts| && |l.experts[idx]| == |l.params| && k < |l.params|
  {
    var n := LocalExperts(l);
    Save(Ep(idx / n, l.experts[idx][k]), l.modelKey, Expert(l.slot, idx % n, l.params[k]))
  }

  /** The first `k` parameters of expert `idx`. */
  function OneExpert<V>(l: Layer<V>, idx: nat, k: nat): seq<Save<V>>
    requires LocalExperts(l) > 0 && idx < |l.experts| && |l.experts[idx]| == |l.params| && k <= |l.params|
  {
    if k == 0 then [] else OneExpert(l, idx, k - 1) + [ExpertSave(l, idx, k - 1)]
  }

  /** The first `count` experts. */
  function ExpertSaves<V>(l: Layer<V>, count: nat): seq<Save<V>>
    requires LocalExperts(l) > 0 && count <= |l.experts|
    requires forall idx :: 0 <= idx < |l.experts| ==> |l.experts[idx]| == |l.params|
  {
    if count == 0 then [] else ExpertSaves(l, count - 1) + OneExpert(l, count - 1, |l.params|)
  }

  /** The loop over the parameters of one expert. */
  method CollectOneExpert<V>(l: Layer<V>, n: nat, idx: nat, before: seq<Save<V>>) returns (operations: seq<Save<V>>)
    requires n == LocalExperts(l) > 0 && idx < |l.experts| && |l.experts[idx]| == |l.params|
    ensures operations == before + OneExpert(l, idx, |l.params|)
  {
    hide LocalExperts;
    var group, local := idx / n, idx % n;
    operations := before;
    var k := 0;
    while k < |l.params|
      invariant 0 <= k <= |l.params|
      invariant operations == before + OneExpert(l, idx, k)
    {
      var save := Save(Ep(group, l.experts[idx][k]), l.modelKey, Expert(l.slot, local, l.params[k]));
      OneMore(l, idx, k);
      operations := operations + [save];
      assert operations == before + OneExpert(l, idx, k + 1);
      k := k + 1;
    }
  }

  /** The expert loop of `convert_layer`; fewer experts than expert groups is a division by zero. */
  method CollectExpertSaves<V>(l: Layer<V>) returns (r: Outcome<seq<Save<V>>>)
    requires forall idx :: 0 <= idx < |l.experts| ==> |l.experts[idx]| == |l.params|
    ensures r.Raised? <==> 0 < |l.experts| < l.p.ep
    ensures r.Returned? && l.experts != [] ==> LocalExperts(l) > 0 && r.value == ExpertSaves(l, |l.experts|)
    ensures l.experts == [] ==> r == Returned([])
  {
    var n := LocalExperts(l);
    NoLocalExperts(l);
    hide LocalExperts, ExpertSaves, OneExpert;
    var operations: seq<Save<V>> := [];
    var idx := 0;
    while idx < |l.experts|
      invariant 0 <= idx <= |l.experts|
      invariant idx > 0 ==> n > 0
      invariant idx == 0 ==> operations == []
      invariant idx > 0 ==> operations == ExpertSaves(l, idx)
    {
      if n == 0 {
        return Raised;
      }
      Unfold(l, idx);
      operations := CollectOneExpert(l, n, idx, operations);
      idx := idx + 1;
    }
    r := Returned(operations);
  }

  lemma Unfold<V>(l: Layer<V>, idx: nat)
    requires LocalExperts(l) > 0 && idx < |l.experts|
    requires forall idx :: 0 <= idx < |l.experts| ==> |l.experts[idx]| == |l.params|
    ensures ExpertSaves(l, idx + 1) == (if idx == 0 then [] else ExpertSaves(l, idx)) + OneExpert(l, idx, |l.params|)
    ensures OneExpert(l, idx, 0) == []
  {
  }

  lemma OneMore<V>(l: Layer<V>, idx: nat, k: nat)
    requires LocalExperts(l) > 0 && idx < |l.experts| && |l.experts[idx]| == |l.params| && k < |l.params|
    ensures OneExpert(l, idx, k + 1) == OneExpert(l, idx, k) + [ExpertSave(l, idx, k)]
    ensures ExpertSave(l, idx, k) ==
      Save(Ep(idx / LocalExperts(l), l.experts[idx][k]), l.modelKey, Expert(l.slot, idx % LocalExperts(l), l.params[k]))
  {
  }

  lemma NoLocalExperts<V>(l: Layer<V>)
    ensures LocalExperts(l) == 0 <==> |l.experts| < l.p.ep
  {
    Remainder(|l.experts|, l.p.ep);
    if LocalExperts(l) == 0 {
      ProductNext(0, l.p.ep);
    } else {
      ProductMonotone(1, LocalExperts(l), l.p.ep);
      ProductNext(1, l.p.ep);
    }
  }

  // ---------------------------------------------------------------- the saves of the loop, one by one

  /** The save is that of parameter `k` of expert `idx`. */
  ghost predicate IsSaveOf<V>(l: Layer<V>, s: Save<V>, idx: nat, k: nat) {
    && LocalExperts(l) > 0 && idx < |l.experts| && |l.experts[idx]| == |l.params| && k < |l.params|
    && s == ExpertSave(l, idx, k)
  }

  lemma {:induction false} OneExpertAt<V>(l: Layer<V>, idx: nat, k: nat, j: nat)
    requires LocalExperts(l) > 0 && idx < |l.experts| && |l.experts[idx]| == |l.params| && k <= |l.params|
    ensures |OneExpert(l, idx, k)| == k
    ensures j < k ==> IsSaveOf(l, OneExpert(l, idx, k)[j], idx, j)
  {
    if k > 0 {
      OneExpertAt(l, idx, k - 1, j);
    }
  }

  /** Entry `j` belongs to expert `j / |params|` and parameter `j % |params|`. */
  lemma {:induction false} SaveAt<V>(l: Layer<V>, count: nat, j: nat) returns (idx: nat, k: nat)
    requires WellFormed(l) && LocalExperts(l) > 0 && count <= |l.experts| && j < |ExpertSaves(l, count)|
    ensures idx < count && k < |l.params| && j == Product(idx, |l.params|) + k
      && IsSaveOf(l, ExpertSaves(l, count)[j], idx, k)
    decreases count
  {
    SavesLength(l, count - 1);
    if j < |ExpertSaves(l, count - 1)| {
      idx, k := SaveAt(l, count - 1, j);
    } else {
      idx, k := count - 1, j - |ExpertSaves(l, count - 1)|;
      OneExpertAt(l, idx, |l.params|, k);
    }
  }

  lemma {:induction false} SavesLength<V>(l: Layer<V>, count: nat)
    requires WellFormed(l) && LocalExperts(l) > 0 && count <= |l.experts|
    ensures |ExpertSaves(l, count)| == Product(count, |l.params|)
  {
    ProductNext(count, |l.params|);
    if count > 0 {
      SavesLength(l, count - 1);
      OneExpertAt(l, count - 1, |l.params|, 0);
    }
  }

  lemma {:induction false} SaveIsThere<V>(l: Layer<V>, count: nat, idx: nat, k: nat)
    requires WellFormed(l) && LocalExperts(l) > 0 && idx < count <= |l.experts| && k < |l.params|
    ensures var j := Product(idx, |l.params|) + k;
      j < |ExpertSaves(l, count)| && IsSaveOf(l, ExpertSaves(l, count)[j], idx, k)
    decreases count
  {
    SavesLength(l, count - 1);
    OneExpertAt(l, count - 1, |l.params|, k);
    if idx < count - 1 {
      SaveIsThere(l, count - 1, idx, k);
    }
  }

  /** Group and local index determine the expert. */
  lemma ExpertDetermined<V>(l: Layer<V>, a: nat, j: nat, b: nat, k: nat)
    requires WellFormed(l) && LocalExperts(l) > 0 && a < |l.experts| && b < |l.experts| && j < |l.params|
      && k < |l.params|
    requires Group(ExpertSave(l, a, j)) == Group(ExpertSave(l, b, k))
      && ExpertSave(l, a, j).name == ExpertSave(l, b, k).name
    ensures a == b && j == k
  {
    var n := LocalExperts(l);
    Remainder(a, n);
    Remainder(b, n);
    hide Product;
  }

  /** No two saves of the loop meet under one name in one file. */
  lemma ExpertsFit<V>(l: Layer<V>, m: nat, modelKeys: set<string>)
    requires WellFormed(l) && LocalExperts(l) > 0 && l.modelKey in modelKeys
    ensures Fits(l.p, ExpertSaves(l, |l.experts|), m, modelKeys)
  {
    var saves := ExpertSaves(l, |l.experts|);
    hide WellFormed, ExpertSaves, LocalExperts, EpRank, Product;
    forall j | 0 <= j < |saves| && Applies(l.p, saves[j], m)
      ensures Piece(saves[j], TargetAt(l.p, 0, m)).Some? && saves[j].modelKey in modelKeys
      ensures forall i :: 0 <= i < j && Applies(l.p, saves[i], m) ==>
        (saves[i].modelKey, saves[i].name) != (saves[j].modelKey, saves[j].name)
    {
      var idx, k := SaveAt(l, |l.experts|, j);
      HasPiece(l, m, idx, k);
      forall i | 0 <= i < j && Applies(l.p, saves[i], m)
        ensures saves[i].name != saves[j].name
      {
        var idx', k' := SaveAt(l, |l.experts|, i);
        if saves[i].name == saves[j].name {
          ExpertDetermined(l, idx, k, idx', k');
        }
      }
    }
  }

  lemma HasPiece<V>(l: Layer<V>, m: nat, idx: nat, k: nat)
    requires WellFormed(l) && LocalExperts(l) > 0 && idx < |l.experts| && k < |l.params|
    ensures m % l.p.tpe < |l.experts[idx][k]|
    ensures Piece(ExpertSave(l, idx, k), TargetAt(l.p, 0, m)) == Some(l.experts[idx][k][m % l.p.tpe])
  {
  }

  /** Local expert `i` of expert group `e`. */
  function GlobalIndex<V>(l: Layer<V>, e: nat, i: nat): nat {
    Product(e, LocalExperts(l)) + i
  }

  lemma GlobalIndexInRange<V>(l: Layer<V>, e: nat, i: nat)
    requires e < l.p.ep && i < LocalExperts(l)
    ensures GlobalIndex(l, e, i) < |l.experts|
    ensures GlobalIndex(l, e, i) / LocalExperts(l) == e && GlobalIndex(l, e, i) % LocalExperts(l) == i
  {
    var n, x := LocalExperts(l), GlobalIndex(l, e, i);
    Remainder(|l.experts|, l.p.ep);
    ProductCommutes(n, l.p.ep);
    ProductMonotone(e + 1, l.p.ep, n);
    ProductNext(e + 1, n);
    QuotientUnique(x, n, e, i);
    Remainder(x, n);
    SameProduct(x / n, e, n);
  }

  /** The file of model rank `m` has the local experts of its group, each with the shard of its expert-tensor rank. */
  lemma ExpertsStored<V>(l: Layer<V>, m: nat, i: nat, k: nat)
    requires WellFormed(l) && LocalExperts(l) > 0 && m < ModelRanks(l.p) && i < LocalExperts(l) && k < |l.params|
    ensures var idx := GlobalIndex(l, EpRank(l.p, m), i);
      && idx < |l.experts| && m % l.p.tpe < |l.experts[idx][k]|
      && var d := Dict(l.p, ExpertSaves(l, |l.experts|), m, l.modelKey);
         Expert(l.slot, i, l.params[k]) in d && d[Expert(l.slot, i, l.params[k])] == l.experts[idx][k][m % l.p.tpe]
  {
    var e := EpRank(l.p, m);
    EpRankBelow(l.p, m);
    GlobalIndexInRange(l, e, i);
    var idx := GlobalIndex(l, e, i);
    ExpertsFit(l, m, {l.modelKey});
    SaveIsThere(l, |l.experts|, idx, k);
    HasPiece(l, m, idx, k);
    hide WellFormed, ExpertSaves, LocalExperts, EpRank, Product, GlobalIndex, Fits, Dict;
    DictValue(l.p, ExpertSaves(l, |l.experts|), m, {l.modelKey}, Product(idx, |l.params|) + k);
  }

  /** It has nothing else. */
  lemma OnlyLocalExperts<V>(l: Layer<V>, m: nat, modelKey: string, name: Name)
    requires WellFormed(l) && LocalExperts(l) > 0 && name in Dict(l.p, ExpertSaves(l, |l.experts|), m, modelKey)
    ensures modelKey == l.modelKey && name.Expert? && name.layer == l.slot && name.local < LocalExperts(l)
      && name.param in l.params
  {
    var saves := ExpertSaves(l, |l.experts|);
    DictNames(l.p, saves, m, modelKey, name);
    hide WellFormed, ExpertSaves, Dict, EpRank, Product;
    var j :| 0 <= j < |saves| && Applies(l.p, saves[j], m) && saves[j].modelKey == modelKey && saves[j].name == name
      && Piece(saves[j], TargetAt(l.p, 0, m)).Some?;
    var idx, k := SaveAt(l, |l.experts|, j);
  }

  // ---------------------------------------------------------------- which experts are stored at all

  /** Some file receives expert `idx`. */
  ghost predicate Kept<V>(l: Layer<V>, idx: nat)
    requires LocalExperts(l) > 0
  {
    exists m: nat :: m < ModelRanks(l.p) && EpRank(l.p, m) == idx / LocalExperts(l)
  }

  lemma KeptIff<V>(l: Layer<V>, idx: nat)
    requires LocalExperts(l) > 0
    ensures Kept(l, idx) <==> idx / LocalExperts(l) < l.p.ep
  {
    var e := idx / LocalExperts(l);
    if e < l.p.ep {
      ShardHasRank(l.p, e, 0);
      assert EpRank(l.p, RankFor(l.p, e, 0)) == e;
    } else {
      forall m: nat | m < ModelRanks(l.p)
        ensures EpRank(l.p, m) != e
      {
        EpRankBelow(l.p, m);
      }
    }
  }

  /**
   * Every expert is stored if and only if the expert groups divide the experts evenly; otherwise the last ones are
   * dropped without an error.
   */
  lemma AllExpertsKeptIff<V>(l: Layer<V>)
    requires LocalExperts(l) > 0
    ensures (forall idx: nat :: idx < |l.experts| ==> Kept(l, idx)) <==> |l.experts| % l.p.ep == 0
  {
    var count, n := |l.experts|, LocalExperts(l);
    Remainder(count, l.p.ep);
    ProductCommutes(n, l.p.ep);
    if count % l.p.ep == 0 {
      forall idx: nat | idx < count
        ensures Kept(l, idx)
      {
        QuotientBelow(idx, l.p.ep, n);
        KeptIff(l, idx);
      }
    } else {
      var last := count - 1;
      Remainder(last, n);
      if last / n < l.p.ep {
        LastBelow(last, last / n, l.p.ep, n);
      }
      KeptIff(l, last);
    }
  }

  /** Three experts on two expert groups: the third is dropped. */
  lemma OneExpertDropped<V>(l: Layer<V>)
    requires |l.experts| == 3 && l.p.ep == 2
    ensures LocalExperts(l) == 1 && !Kept(l, 2)
  {
    KeptIff(l, 2);
  }

  /** A number with quotient below `g` is below `Product(g, n)`. */
  lemma LastBelow(x: nat, q: nat, g: nat, n: nat)
    requires n > 0 && q < g && q == x / n
    ensures x < Product(g, n)
  {
    Remainder(x, n);
    ProductMonotone(q + 1, g, n);
    ProductNext(q + 1, n);
  }

  /**
   * Converting the experts of a layer into fresh files never fails, and every file then holds just its local experts.
   */
  lemma ExpertConversion<V>(l: Layer<V>, ppRank: nat, files: Files<V>, modelKeys: set<string>)
    requires WellFormed(l) && LocalExperts(l) > 0 && l.modelKey in modelKeys
    requires l.p.tpe <= l.p.tp && ppRank < l.p.pp && Fresh(files, modelKeys)
    ensures var r := Run(l.p, ppRank, files, ExpertSaves(l, |l.experts|));
      r.Returned? && Holds(l.p, ppRank, r.value, files.Keys, modelKeys, ExpertSaves(l, |l.experts|))
  {
    var saves := ExpertSaves(l, |l.experts|);
    RunStores(l.p, ppRank, files, modelKeys, saves);
    hide WellFormed, ExpertSaves, LocalExperts, Fits, Active;
    forall m: nat | Active(l.p, ppRank, files, m)
      ensures Fits(l.p, saves, m, modelKeys)
    {
      ExpertsFit(l, m, modelKeys);
    }
  }
}
