/** What every file of a converted checkpoint holds, said of the parts of its name. */
module FileContents {
  import opened Wrappers
  import opened Arithmetic
  import opened CheckpointKeys
  import opened CheckpointStore

  /** `k` names the file of model rank `m`. */
  ghost predicate IsKeyOf(p: Parallel, ppRank: nat, m: nat, k: Key) {
    && (m < p.tpe * p.ep || m < p.tp)
    && k.tp == m % p.tp
    && k.pp == (if p.pp == 1 then None else Some(ppRank))
    && k.ep == (if p.ep > 1 then Some((m / p.tpe) % p.ep) else None)
  }

  lemma RankInRange(p: Parallel, m: nat)
    ensures m < ModelRanks(p) <==> m < p.tpe * p.ep || m < p.tp
  {
    ProductCommutes(p.ep, p.tpe);
  }

  lemma KeyIs(p: Parallel, ppRank: nat, m: nat, k: Key)
    ensures IsKeyOf(p, ppRank, m, k) <==> m < ModelRanks(p) && k == TargetAt(p, ppRank, m).key
  {
    RankInRange(p, m);
    hide ModelRanks;
  }

  lemma RanksOfTarget(p: Parallel, ppRank: nat, m: nat)
    ensures TargetAt(p, ppRank, m).tpRank == TargetAt(p, ppRank, m).key.tp == m % p.tp < p.tp
    ensures TargetAt(p, ppRank, m).tpeRank == m % p.tpe
  {
  }

  /** The target of model rank `m`, which must be of expert group `ep` if one is given. */
  ghost predicate IsTargetOf(p: Parallel, ppRank: nat, ep: Option<nat>, m: nat, t: Target) {
    && IsKeyOf(p, ppRank, m, t.key) && t.tpRank == t.key.tp && t.tpeRank == m % p.tpe
    && (ep.Some? ==> ep.value == (m / p.tpe) % p.ep)
  }

  lemma TargetIs(p: Parallel, ppRank: nat, ep: Option<nat>, m: nat, t: Target)
    ensures IsTargetOf(p, ppRank, ep, m, t)
      <==> m < ModelRanks(p) && Selected(p, ep, m) && t == TargetAt(p, ppRank, m)
  {
    KeyIs(p, ppRank, m, t.key);
    RanksOfTarget(p, ppRank, m);
    hide ModelRanks, TargetAt, IsKeyOf;
  }

  /**
   * The generator yields exactly the targets of the model ranks, one for each file; the tensor rank is the one in the
   * file's name.
   */
  lemma TargetsMatchNames(p: Parallel, ppRank: nat, ep: Option<nat>)
    requires p.tpe <= p.tp && ppRank < p.pp
    ensures GenCheckpointName(p, ppRank, ep).Returned?
    ensures forall t ::
      t in GenCheckpointName(p, ppRank, ep).value <==> exists m: nat :: IsTargetOf(p, ppRank, ep, m, t)
    ensures forall t :: t in GenCheckpointName(p, ppRank, ep).value ==> t.tpRank == t.key.tp < p.tp
  {
    GenYields(p, ppRank, ep);
    hide GenCheckpointName, ModelRanks, TargetAt, Selected, IsTargetOf;
    forall t
      ensures YieldedFrom(p, ppRank, ep, 0, t) <==> exists m: nat :: IsTargetOf(p, ppRank, ep, m, t)
      ensures YieldedFrom(p, ppRank, ep, 0, t) ==> t.tpRank == t.key.tp < p.tp
    {
      if YieldedFrom(p, ppRank, ep, 0, t) {
        var m: nat :| m < ModelRanks(p) && Selected(p, ep, m) && t == TargetAt(p, ppRank, m);
        TargetIs(p, ppRank, ep, m, t);
        RanksOfTarget(p, ppRank, m);
      }
      if m: nat :| IsTargetOf(p, ppRank, ep, m, t) {
        TargetIs(p, ppRank, ep, m, t);
      }
    }
  }

  lemma {:induction false} RanksFrom(p: Parallel, ppRank: nat, ep: Option<nat>, m: nat) returns (ranks: seq<nat>)
    requires p.tpe <= p.tp
    ensures GenFrom(p, ppRank, ep, m).Returned? && |ranks| == |GenFrom(p, ppRank, ep, m).value|
    ensures forall i :: 0 <= i < |ranks| ==>
      && m <= ranks[i] < ModelRanks(p) && Selected(p, ep, ranks[i])
      && GenFrom(p, ppRank, ep, m).value[i] == TargetAt(p, ppRank, ranks[i])
    ensures forall i, j :: 0 <= i < j < |ranks| ==> ranks[i] < ranks[j]
    decreases ModelRanks(p) - m
  {
    hide TargetAt, ModelRanks, Selected;
    if m >= ModelRanks(p) {
      ranks := [];
    } else {
      ranks := RanksFrom(p, ppRank, ep, m + 1);
      if Selected(p, ep, m) {
        ranks := [m] + ranks;
      }
    }
  }

  /** The targets come in the order of the model ranks. */
  lemma TargetsInOrder(p: Parallel, ppRank: nat, ep: Option<nat>) returns (ranks: seq<nat>)
    requires p.tpe <= p.tp && ppRank < p.pp
    ensures GenCheckpointName(p, ppRank, ep).Returned? && |ranks| == |GenCheckpointName(p, ppRank, ep).value|
    ensures forall i :: 0 <= i < |ranks| ==>
      IsTargetOf(p, ppRank, ep, ranks[i], GenCheckpointName(p, ppRank, ep).value[i])
    ensures forall i, j :: 0 <= i < j < |ranks| ==> ranks[i] < ranks[j]
  {
    ranks := RanksFrom(p, ppRank, ep, 0);
    hide GenFrom, TargetAt, ModelRanks, Selected, IsTargetOf;
    forall i | 0 <= i < |ranks|
      ensures IsTargetOf(p, ppRank, ep, ranks[i], GenCheckpointName(p, ppRank, ep).value[i])
    {
      TargetIs(p, ppRank, ep, ranks[i], GenCheckpointName(p, ppRank, ep).value[i]);
    }
  }

  // ---------------------------------------------------------------- a run from fresh files

  /** Whether a save goes to model rank `m`. */
  ghost predicate Receives<V>(p: Parallel, s: Save<V>, m: nat) {
    s.content.Ep? ==> s.content.rank == (m / p.tpe) % p.ep
  }

  /** What the file `k` of model rank `m` has of a save: the whole value, or the part its name or its rank says. */
  ghost predicate IsPart<V>(p: Parallel, s: Save<V>, k: Key, m: nat, v: V) {
    match s.content
    case Copy(whole) => v == whole
    case Tp(parts) => k.tp < |parts| && v == parts[k.tp]
    case Ep(_, parts) => m % p.tpe < |parts| && v == parts[m % p.tpe]
  }

  ghost predicate HasPart<V>(p: Parallel, s: Save<V>, k: Key, m: nat, file: map<string, map<Name, V>>) {
    s.modelKey in file && s.name in file[s.modelKey] && IsPart(p, s, k, m, file[s.modelKey][s.name])
  }

  ghost predicate FromSave<V>(p: Parallel, saves: seq<Save<V>>, m: nat, modelKey: string, name: Name) {
    exists j :: 0 <= j < |saves| && Receives(p, saves[j], m) && saves[j].modelKey == modelKey && saves[j].name == name
  }

  /** The file has its part of every save that goes to it, and nothing else. */
  ghost predicate FileIs<V>(p: Parallel, saves: seq<Save<V>>, k: Key, m: nat, file: map<string, map<Name, V>>) {
    && (forall j :: 0 <= j < |saves| && Receives(p, saves[j], m) ==> HasPart(p, saves[j], k, m, file))
    && (forall modelKey, name :: modelKey in file && name in file[modelKey] ==> FromSave(p, saves, m, modelKey, name))
  }

  lemma AppliesIs<V>(p: Parallel, s: Save<V>, m: nat)
    ensures Applies(p, s, m) <==> Receives(p, s, m)
  {
  }

  lemma PieceIsPart<V>(p: Parallel, ppRank: nat, s: Save<V>, m: nat, k: Key, v: V)
    requires IsKeyOf(p, ppRank, m, k)
    ensures Piece(s, TargetAt(p, 0, m)) == Some(v) <==> IsPart(p, s, k, m, v)
  {
    RanksOfTarget(p, 0, m);
    hide TargetAt;
  }

  /** The file of a rank whose dictionaries are those of the saves. */
  lemma DictsAreParts<V>(p: Parallel, ppRank: nat, saves: seq<Save<V>>, k: Key, m: nat, modelKeys: set<string>)
    requires IsKeyOf(p, ppRank, m, k) && Fits(p, saves, m, modelKeys)
    ensures FileIs(p, saves, k, m, FileOf(p, saves, m, modelKeys))
  {
    hide TargetAt, Applies, Piece, Dict, IsKeyOf, Receives, IsPart, Fits;
    var file := FileOf(p, saves, m, modelKeys);
    forall j | 0 <= j < |saves| && Receives(p, saves[j], m)
      ensures HasPart(p, saves[j], k, m, file)
    {
      AppliesIs(p, saves[j], m);
      DictValue(p, saves, m, modelKeys, j);
      FitsKey(p, saves, m, modelKeys, j);
      PieceIsPart(p, ppRank, saves[j], m, k, Piece(saves[j], TargetAt(p, 0, m)).value);
    }
    forall modelKey, name | modelKey in file && name in file[modelKey]
      ensures FromSave(p, saves, m, modelKey, name)
    {
      DictNames(p, saves, m, modelKey, name);
      var j :| 0 <= j < |saves| && Applies(p, saves[j], m) && saves[j].modelKey == modelKey && saves[j].name == name
        && Piece(saves[j], TargetAt(p, 0, m)).Some?;
      AppliesIs(p, saves[j], m);
    }
  }

  lemma FitsKey<V>(p: Parallel, saves: seq<Save<V>>, m: nat, modelKeys: set<string>, j: nat)
    requires Fits(p, saves, m, modelKeys) && j < |saves| && Applies(p, saves[j], m)
    ensures saves[j].modelKey in modelKeys
  {
  }

  /** Files that hold what the saves put there. */
  lemma HeldParts<V>(p: Parallel, ppRank: nat, after: Files<V>, keys: set<Key>, modelKeys: set<string>,
      saves: seq<Save<V>>, k: Key, m: nat)
    requires Holds(p, ppRank, after, keys, modelKeys, saves) && AllFit(p, ppRank, after, modelKeys, saves)
    requires k in keys && IsKeyOf(p, ppRank, m, k)
    ensures k in after && after[k].Keys == modelKeys && FileIs(p, saves, k, m, after[k])
  {
    KeyIs(p, ppRank, m, k);
    DictsHeld(p, ppRank, after, keys, modelKeys, saves, m);
    hide *;
    DictsAreParts(p, ppRank, saves, k, m, modelKeys);
  }

  lemma DictsHeld<V>(p: Parallel, ppRank: nat, after: Files<V>, keys: set<Key>, modelKeys: set<string>,
      saves: seq<Save<V>>, m: nat)
    requires Holds(p, ppRank, after, keys, modelKeys, saves) && AllFit(p, ppRank, after, modelKeys, saves)
    requires m < ModelRanks(p) && TargetAt(p, ppRank, m).key in keys
    ensures TargetAt(p, ppRank, m).key in after && Fits(p, saves, m, modelKeys)
    ensures after[TargetAt(p, ppRank, m).key] == FileOf(p, saves, m, modelKeys)
    ensures after[TargetAt(p, ppRank, m).key].Keys == modelKeys
  {
    hide TargetAt, ModelRanks, Fits, Dict;
    assert Active(p, ppRank, after, m);
  }

  /** After a run from fresh files, each file has exactly its parts. */
  lemma RunContents<V>(p: Parallel, ppRank: nat, files: Files<V>, modelKeys: set<string>, saves: seq<Save<V>>, k: Key,
      m: nat)
    requires p.tpe <= p.tp && ppRank < p.pp && Fresh(files, modelKeys) && Run(p, ppRank, files, saves).Returned?
    requires k in files && IsKeyOf(p, ppRank, m, k)
    ensures var after := Run(p, ppRank, files, saves).value;
      k in after && after[k].Keys == modelKeys && FileIs(p, saves, k, m, after[k])
  {
    RunStores(p, ppRank, files, modelKeys, saves);
    var after := Run(p, ppRank, files, saves).value;
    hide Run, TargetAt, ModelRanks, Fits, FileIs, IsKeyOf, FileOf;
    SameActive(p, ppRank, files, after);
    HeldParts(p, ppRank, after, files.Keys, modelKeys, saves, k, m);
  }

  /** The file is there, and it is that of some model rank of the tensor rank `t`. */
  ghost predicate IsShardFile<V>(p: Parallel, ppRank: nat, files: Files<V>, k: Key, t: nat) {
    k in files && k.tp == t && exists m: nat :: IsKeyOf(p, ppRank, m, k)
  }

  /** The shards of a parameter, read in the order of the tensor ranks in the files' names, are those it was cut in. */
  lemma TensorRestored<V>(p: Parallel, ppRank: nat, files: Files<V>, modelKeys: set<string>, saves: seq<Save<V>>,
      j: nat, ks: seq<Key>)
    requires p.tpe <= p.tp && ppRank < p.pp && Fresh(files, modelKeys) && Run(p, ppRank, files, saves).Returned?
    requires j < |saves| && saves[j].content.Tp? && |ks| == |saves[j].content.parts|
    requires forall t :: 0 <= t < |ks| ==> IsShardFile(p, ppRank, files, ks[t], t)
    ensures var after, s := Run(p, ppRank, files, saves).value, saves[j];
      forall t :: 0 <= t < |ks| ==>
        && ks[t] in after && s.modelKey in after[ks[t]] && s.name in after[ks[t]][s.modelKey]
        && after[ks[t]][s.modelKey][s.name] == s.content.parts[t]
  {
    var after, s := Run(p, ppRank, files, saves).value, saves[j];
    hide Run, Fresh, IsKeyOf;
    forall t | 0 <= t < |ks|
      ensures ks[t] in after && HasPart(p, s, ks[t], 0, after[ks[t]])
    {
      assert IsShardFile(p, ppRank, files, ks[t], t);
      var m: nat :| IsKeyOf(p, ppRank, m, ks[t]);
      RunContents(p, ppRank, files, modelKeys, saves, ks[t], m);
      assert Receives(p, saves[j], m);
    }
  }

  /** There is a file for every tensor rank. */
  lemma EveryTensorRank(p: Parallel, ppRank: nat, t: nat)
    requires p.tpe <= p.tp && ppRank < p.pp && t < p.tp
    ensures GenCheckpointName(p, ppRank, None).Returned?
    ensures exists target :: target in GenCheckpointName(p, ppRank, None).value && target.key.tp == t == target.tpRank
  {
    TargetsMatchNames(p, ppRank, None);
    SmallRemainder(t, p.tp);
    var target := TargetAt(p, ppRank, t);
    TargetIs(p, ppRank, None, t, target);
    RanksOfTarget(p, ppRank, t);
  }

  /** There is a file for every shard of every expert group. */
  lemma EveryExpertShard(p: Parallel, ppRank: nat, e: nat, t: nat)
    requires p.tpe <= p.tp && ppRank < p.pp && e < p.ep && t < p.tpe
    ensures GenCheckpointName(p, ppRank, Some(e)).Returned?
    ensures exists m: nat, target ::
      && target in GenCheckpointName(p, ppRank, Some(e)).value && IsTargetOf(p, ppRank, Some(e), m, target)
      && target.tpeRank == t
  {
    TargetsMatchNames(p, ppRank, Some(e));
    ShardHasRank(p, e, t);
    var m := RankFor(p, e, t);
    TargetIs(p, ppRank, Some(e), m, TargetAt(p, ppRank, m));
    RanksOfTarget(p, ppRank, m);
  }
}
