/** Saving parameters into the files of a checkpoint: `Save.execute`, whole conversions, and the experts. */
module CheckpointStore {
  import opened Wrappers
  import opened CheckpointKeys

  /**
   * `decoder.layers.<layer>.mlp.experts.local_experts.<local>.<param>` and `decoder.layers.<layer>.<param>`, with the
   * layer's index in its slot, and the names outside the layers.
   */
  datatype Name =
    | Expert(layer: nat, local: nat, param: string)
    | InLayer(layer: nat, param: string)
    | Outside(param: string)

  /** The three strategies, each with the value its source operation gives. */
  datatype Content<V> = Copy(whole: V) | Tp(parts: seq<V>) | Ep(rank: nat, parts: seq<V>)

  datatype Save<V> = Save(content: Content<V>, modelKey: string, name: Name)

  /** Checkpoint key, model key, parameter name. */
  type Files<V> = map<Key, map<string, map<Name, V>>>

  function Group<V>(s: Save<V>): Option<nat> {
    if s.content.Ep? then Some(s.content.rank) else None
  }

  /** What goes to a target; nothing if the list of shards is too short. */
  function Piece<V>(s: Save<V>, t: Target): Option<V> {
    match s.content
    case Copy(whole) => Some(whole)
    case Tp(parts) => if t.tpRank < |parts| then Some(parts[t.tpRank]) else None
    case Ep(_, parts) => if t.tpeRank < |parts| then Some(parts[t.tpeRank]) else None
  }

  predicate CanPush<V>(files: Files<V>, t: Target, s: Save<V>) {
    t.key in files ==> Piece(s, t).Some? && s.modelKey in files[t.key] && s.name !in files[t.key][s.modelKey]
  }

  function Pushed<V>(file: map<string, map<Name, V>>, t: Target, s: Save<V>): map<string, map<Name, V>>
    requires Piece(s, t).Some? && s.modelKey in file
  {
    file[s.modelKey := file[s.modelKey][s.name := Piece(s, t).value]]
  }

  /** One `dict_push`; keys that are not being written are skipped. */
  function Push<V>(files: Files<V>, t: Target, s: Save<V>): Outcome<Files<V>> {
    if t.key !in files then Returned(files)
    else if !CanPush(files, t, s) then Raised
    else Returned(files[t.key := Pushed(files[t.key], t, s)])
  }

  function PushAll<V>(files: Files<V>, ts: seq<Target>, s: Save<V>): Outcome<Files<V>> {
    if ts == [] then Returned(files)
    else
      var next :- Push(files, ts[0], s);
      PushAll(next, ts[1..], s)
  }

  function Executed<V>(p: Parallel, ppRank: nat, files: Files<V>, s: Save<V>): Outcome<Files<V>> {
    var ts :- GenCheckpointName(p, ppRank, Group(s));
    PushAll(files, ts, s)
  }

  /** `for op in operations: op.execute()`. */
  function Run<V>(p: Parallel, ppRank: nat, files: Files<V>, saves: seq<Save<V>>): Outcome<Files<V>> {
    if saves == [] then Returned(files)
    else
      var before :- Run(p, ppRank, files, saves[..|saves| - 1]);
      Executed(p, ppRank, before, saves[|saves| - 1])
  }

  /** An exception in the middle of a save: the files of the targets before the failing one have been written. */
  ghost predicate StoppedAt<V>(files: Files<V>, ts: seq<Target>, s: Save<V>, after: Files<V>, k: nat) {
    k < |ts| && PushAll(files, ts[..k], s) == Returned(after) && !CanPush(after, ts[k], s)
  }

  ghost predicate StoppedIn<V>(p: Parallel, ppRank: nat, files: Files<V>, s: Save<V>, after: Files<V>) {
    match GenCheckpointName(p, ppRank, Group(s))
    case Raised => after == files
    case Returned(ts) => exists k: nat :: StoppedAt(files, ts, s, after, k)
  }

  /** And in the middle of a run: the saves before the failing one have been executed. */
  ghost predicate RunStoppedIn<V>(p: Parallel, ppRank: nat, files: Files<V>, saves: seq<Save<V>>, after: Files<V>,
      k: nat) {
    && k < |saves| && Run(p, ppRank, files, saves[..k]).Returned?
    && StoppedIn(p, ppRank, Run(p, ppRank, files, saves[..k]).value, saves[k], after)
  }

  lemma {:induction false} PushAllSnoc<V>(files: Files<V>, ts: seq<Target>, t: Target, s: Save<V>)
    requires PushAll(files, ts, s).Returned?
    ensures PushAll(files, ts + [t], s) == Push(PushAll(files, ts, s).value, t, s)
  {
    if ts == [] {
      assert ([] + [t])[1..] == [];
    } else {
      assert (ts + [t])[1..] == ts[1..] + [t];
      PushAllSnoc(Push(files, ts[0], s).value, ts[1..], t, s);
    }
  }

  lemma {:induction false} PushAllStops<V>(files: Files<V>, ts: seq<Target>, s: Save<V>, i: nat)
    requires i <= |ts| && PushAll(files, ts[..i], s).Raised?
    ensures PushAll(files, ts, s).Raised?
    decreases |ts| - i
  {
    if i < |ts| {
      assert ts[..i + 1] == ts[..i] + [ts[i]];
      PushAllPrefix(files, ts[..i], ts[i], s);
      PushAllStops(files, ts, s, i + 1);
    } else {
      assert ts[..i] == ts;
    }
  }

  lemma {:induction false} PushAllPrefix<V>(files: Files<V>, ts: seq<Target>, t: Target, s: Save<V>)
    requires PushAll(files, ts, s).Raised?
    ensures PushAll(files, ts + [t], s).Raised?
  {
    assert (ts + [t])[0] == ts[0] && (ts + [t])[1..] == ts[1..] + [t];
    if Push(files, ts[0], s).Returned? {
      PushAllPrefix(Push(files, ts[0], s).value, ts[1..], t, s);
    }
  }

  class Checkpoint<V> {
    const p: Parallel
    const ppRank: nat
    var files: Files<V>

    constructor (p: Parallel, ppRank: nat, files: Files<V>)
      ensures this.p == p && this.ppRank == ppRank && this.files == files
    {
      this.p, this.ppRank, this.files := p, ppRank, files;
    }

    /** `Save.execute`: an exception leaves the targets before it written. */
    method Execute(s: Save<V>) returns (r: Outcome<()>)
      modifies this`files
      ensures r.Returned? <==> Executed(p, ppRank, old(files), s).Returned?
      ensures r.Returned? ==> files == Executed(p, ppRank, old(files), s).value
      ensures r.Raised? ==> StoppedIn(p, ppRank, old(files), s, files)
    {
      hide CanPush, Pushed, Piece, PushAll;
      var ts :- GenCheckpointName(p, ppRank, Group(s));
      NothingPushed(files, s);
      assert ts[..0] == [];
      for i := 0 to |ts|
        invariant PushAll(old(files), ts[..i], s) == Returned(files)
      {
        assert ts[..i + 1] == ts[..i] + [ts[i]];
        PushAllSnoc(old(files), ts[..i], ts[i], s);
        var pushed := DictPush(ts[i], s);
        if pushed.Raised? {
          PushAllStops(old(files), ts, s, i + 1);
          assert StoppedAt(old(files), ts, s, files, i);
          return Raised;
        }
      }
      assert ts[..|ts|] == ts;
      r := Returned(());
    }

    /** `dict_push` for one key, if it is being written. */
    method DictPush(t: Target, s: Save<V>) returns (r: Outcome<()>)
      modifies this`files
      ensures r.Returned? <==> CanPush(old(files), t, s)
      ensures r.Returned? ==> Push(old(files), t, s) == Returned(files)
      ensures r.Raised? ==> files == old(files) && Push(files, t, s) == Raised
    {
      if t.key in files {
        var piece := Piece(s, t);
        if piece.None? || s.modelKey !in files[t.key] || s.name in files[t.key][s.modelKey] {
          return Raised;
        }
        files := files[t.key := files[t.key][s.modelKey := files[t.key][s.modelKey][s.name := piece.value]]];
      }
      r := Returned(());
    }

    /** The last loop of `convert_layer`: an exception leaves the saves before it executed. */
    method ExecuteAll(saves: seq<Save<V>>) returns (r: Outcome<()>)
      modifies this`files
      ensures r.Returned? <==> Run(p, ppRank, old(files), saves).Returned?
      ensures r.Returned? ==> files == Run(p, ppRank, old(files), saves).value
      ensures r.Raised? ==> exists k: nat :: RunStoppedIn(p, ppRank, old(files), saves, files, k)
    {
      hide Executed, StoppedIn;
      for i := 0 to |saves|
        invariant Run(p, ppRank, old(files), saves[..i]) == Returned(files)
      {
        assert saves[..i + 1][..i] == saves[..i];
        var done := Execute(saves[i]);
        if done.Raised? {
          RunStops(p, ppRank, old(files), saves, i + 1);
          assert RunStoppedIn(p, ppRank, old(files), saves, files, i);
          return Raised;
        }
      }
      assert saves[..|saves|] == saves;
      r := Returned(());
    }
  }

  lemma NothingPushed<V>(files: Files<V>, s: Save<V>)
    ensures PushAll(files, [], s) == Returned(files)
  {
  }

  lemma {:induction false} RunStops<V>(p: Parallel, ppRank: nat, files: Files<V>, saves: seq<Save<V>>, i: nat)
    requires i <= |saves| && Run(p, ppRank, files, saves[..i]).Raised?
    ensures Run(p, ppRank, files, saves).Raised?
    decreases |saves| - i
  {
    if i < |saves| {
      assert saves[..i + 1][..i] == saves[..i];
      RunStops(p, ppRank, files, saves, i + 1);
    } else {
      assert saves[..i] == saves;
    }
  }

  // ---------------------------------------------------------------- the effect of one save

  ghost predicate NoTarget(ts: seq<Target>, k: Key) {
    forall t :: t in ts ==> t.key != k
  }

  /** What one save leaves: the files of its targets get the piece, the others stay. */
  ghost predicate Effect<V>(files: Files<V>, ts: seq<Target>, s: Save<V>, after: Files<V>) {
    && after.Keys == files.Keys
    && (forall k :: k in files && NoTarget(ts, k) ==> after[k] == files[k])
    && (forall t :: t in ts && t.key in files ==> CanPush(files, t, s) && after[t.key] == Pushed(files[t.key], t, s))
  }

  lemma {:induction false} PushAllEffect<V>(files: Files<V>, ts: seq<Target>, s: Save<V>)
    requires DistinctKeys(ts)
    ensures PushAll(files, ts, s).Returned? <==> forall t :: t in ts ==> CanPush(files, t, s)
    ensures PushAll(files, ts, s).Returned? ==> Effect(files, ts, s, PushAll(files, ts, s).value)
  {
    if ts != [] {
      var first, rest := ts[0], ts[1..];
      var step := Push(files, first, s);
      FirstIsNew(ts);
      if step.Returned? {
        PushAllEffect(step.value, rest, s);
        PushKeepsOthers(files, first, s, rest);
        assert forall t :: t in ts <==> t == first || t in rest;
        if PushAll(files, ts, s).Returned? {
          EffectAdds(files, first, rest, s, PushAll(files, ts, s).value);
          assert ts == [first] + rest;
        }
      }
    }
  }

  lemma FirstIsNew(ts: seq<Target>)
    requires ts != [] && DistinctKeys(ts)
    ensures DistinctKeys(ts[1..]) && NoTarget(ts[1..], ts[0].key)
  {
  }

  lemma PushKeepsOthers<V>(files: Files<V>, first: Target, s: Save<V>, rest: seq<Target>)
    requires Push(files, first, s).Returned? && NoTarget(rest, first.key)
    ensures forall t :: t in rest ==> (CanPush(Push(files, first, s).value, t, s) <==> CanPush(files, t, s))
  {
  }

  lemma EffectAdds<V>(files: Files<V>, first: Target, rest: seq<Target>, s: Save<V>, after: Files<V>)
    requires Push(files, first, s).Returned? && NoTarget(rest, first.key)
    requires Effect(Push(files, first, s).value, rest, s, after)
    ensures Effect(files, [first] + rest, s, after)
  {
    var mid := Push(files, first, s).value;
    forall k | k in files && NoTarget([first] + rest, k)
      ensures after[k] == files[k]
    {
      assert first in [first] + rest;
      assert NoTarget(rest, k);
    }
    forall t | t in [first] + rest && t.key in files
      ensures CanPush(files, t, s) && after[t.key] == Pushed(files[t.key], t, s)
    {
      if t == first {
        assert after[t.key] == mid[t.key];
      } else {
        assert t in rest;
      }
    }
  }

  // ---------------------------------------------------------------- what a run leaves at every model rank

  predicate Applies<V>(p: Parallel, s: Save<V>, m: nat) {
    Selected(p, Group(s), m)
  }

  /** What model rank `m` has under a model key after the saves. */
  function Dict<V>(p: Parallel, saves: seq<Save<V>>, m: nat, modelKey: string): map<Name, V> {
    if saves == [] then map[]
    else
      var d, s := Dict(p, saves[..|saves| - 1], m, modelKey), saves[|saves| - 1];
      var piece := Piece(s, TargetAt(p, 0, m));
      if Applies(p, s, m) && s.modelKey == modelKey && piece.Some? then d[s.name := piece.value] else d
  }

  /** Rank `m` gets every save that applies to it, and no two under one name. */
  ghost predicate Fits<V>(p: Parallel, saves: seq<Save<V>>, m: nat, modelKeys: set<string>) {
    forall j :: 0 <= j < |saves| && Applies(p, saves[j], m) ==>
      && Piece(saves[j], TargetAt(p, 0, m)).Some? && saves[j].modelKey in modelKeys
      && forall i :: 0 <= i < j && Applies(p, saves[i], m) ==>
        (saves[i].modelKey, saves[i].name) != (saves[j].modelKey, saves[j].name)
  }

  /** Some applicable save stores this name. */
  ghost predicate StoredBy<V>(p: Parallel, saves: seq<Save<V>>, m: nat, modelKey: string, name: Name) {
    exists j :: 0 <= j < |saves| && Applies(p, saves[j], m) && saves[j].modelKey == modelKey && saves[j].name == name
      && Piece(saves[j], TargetAt(p, 0, m)).Some?
  }

  lemma {:induction false} DictNames<V>(p: Parallel, saves: seq<Save<V>>, m: nat, modelKey: string, name: Name)
    ensures name in Dict(p, saves, m, modelKey) <==> StoredBy(p, saves, m, modelKey, name)
  {
    hide TargetAt, Applies, Piece;
    if saves != [] {
      var init := saves[..|saves| - 1];
      DictNames(p, init, m, modelKey, name);
      assert forall j :: 0 <= j < |init| ==> init[j] == saves[j];
    }
  }

  /** The name is there with the piece of its save. */
  lemma {:induction false} DictValue<V>(p: Parallel, saves: seq<Save<V>>, m: nat, modelKeys: set<string>, j: nat)
    requires j < |saves| && Applies(p, saves[j], m) && Fits(p, saves, m, modelKeys)
    ensures Piece(saves[j], TargetAt(p, 0, m)).Some?
    ensures saves[j].name in Dict(p, saves, m, saves[j].modelKey)
    ensures Dict(p, saves, m, saves[j].modelKey)[saves[j].name] == Piece(saves[j], TargetAt(p, 0, m)).value
  {
    hide TargetAt, Applies, Piece;
    if j < |saves| - 1 {
      var init := saves[..|saves| - 1];
      DictValue(p, init, m, modelKeys, j);
    }
  }

  /** Model rank `m` has a file that is being written. */
  predicate Active<V>(p: Parallel, ppRank: nat, files: Files<V>, m: nat) {
    m < ModelRanks(p) && TargetAt(p, ppRank, m).key in files
  }

  function FileOf<V>(p: Parallel, saves: seq<Save<V>>, m: nat, modelKeys: set<string>): map<string, map<Name, V>> {
    map modelKey | modelKey in modelKeys :: Dict(p, saves, m, modelKey)
  }

  /** The files hold exactly what the saves put there. */
  ghost predicate Holds<V>(p: Parallel, ppRank: nat, files: Files<V>, keys: set<Key>, modelKeys: set<string>,
      saves: seq<Save<V>>) {
    files.Keys == keys && forall m: nat :: Active(p, ppRank, files, m) ==>
      files[TargetAt(p, ppRank, m).key] == FileOf(p, saves, m, modelKeys)
  }

  ghost predicate AllFit<V>(p: Parallel, ppRank: nat, files: Files<V>, modelKeys: set<string>, saves: seq<Save<V>>) {
    forall m: nat :: Active(p, ppRank, files, m) ==> Fits(p, saves, m, modelKeys)
  }

  lemma PieceOfRank<V>(p: Parallel, ppRank: nat, s: Save<V>, m: nat)
    ensures Piece(s, TargetAt(p, ppRank, m)) == Piece(s, TargetAt(p, 0, m))
  {
  }

  /** Whether the last save of the list fits, for one model rank. */
  ghost predicate LastFits<V>(p: Parallel, saves: seq<Save<V>>, s: Save<V>, m: nat, modelKeys: set<string>) {
    Applies(p, s, m) ==>
      Piece(s, TargetAt(p, 0, m)).Some? && s.modelKey in modelKeys && s.name !in Dict(p, saves, m, s.modelKey)
  }

  lemma FitsSnoc<V>(p: Parallel, saves: seq<Save<V>>, s: Save<V>, m: nat, modelKeys: set<string>)
    requires Fits(p, saves, m, modelKeys)
    ensures Fits(p, saves + [s], m, modelKeys) <==> LastFits(p, saves, s, m, modelKeys)
  {
    DictNames(p, saves, m, s.modelKey, s.name);
    hide TargetAt, Applies, Piece, Dict;
    var all := saves + [s];
    assert forall j :: 0 <= j < |saves| ==> all[j] == saves[j];
    assert all[|saves|] == s;
    if Applies(p, s, m) && StoredBy(p, saves, m, s.modelKey, s.name) {
      var j :| 0 <= j < |saves| && Applies(p, saves[j], m) && saves[j].modelKey == s.modelKey && saves[j].name == s.name
        && Piece(saves[j], TargetAt(p, 0, m)).Some?;
      assert Applies(p, all[j], m) && Applies(p, all[|saves|], m);
    }
  }

  lemma FitsInit<V>(p: Parallel, saves: seq<Save<V>>, s: Save<V>, m: nat, modelKeys: set<string>)
    requires Fits(p, saves + [s], m, modelKeys)
    ensures Fits(p, saves, m, modelKeys)
  {
    hide TargetAt, Applies, Piece;
    assert forall j :: 0 <= j < |saves| ==> (saves + [s])[j] == saves[j];
  }

  /** One more save: it succeeds iff it fits at every rank, and the files then hold it too. */
  lemma SaveStep<V>(p: Parallel, ppRank: nat, files: Files<V>, keys: set<Key>, modelKeys: set<string>,
      saves: seq<Save<V>>, s: Save<V>)
    requires p.tpe <= p.tp && ppRank < p.pp && Holds(p, ppRank, files, keys, modelKeys, saves)
    ensures Executed(p, ppRank, files, s).Returned? <==>
      forall m: nat :: Active(p, ppRank, files, m) ==> LastFits(p, saves, s, m, modelKeys)
    ensures Executed(p, ppRank, files, s).Returned? ==>
      Holds(p, ppRank, Executed(p, ppRank, files, s).value, keys, modelKeys, saves + [s])
  {
    GenYields(p, ppRank, Group(s));
    var ts := GenCheckpointName(p, ppRank, Group(s)).value;
    PushAllEffect(files, ts, s);
    hide GenCheckpointName, PushAll, TargetAt, EpRank, ModelRanks;
    CanPushIffFits(p, ppRank, files, keys, modelKeys, saves, s, ts);
    var r := Executed(p, ppRank, files, s);
    if r.Returned? {
      forall m: nat | Active(p, ppRank, files, m)
        ensures r.value[TargetAt(p, ppRank, m).key] == FileOf(p, saves + [s], m, modelKeys)
      {
        FileStep(p, ppRank, files, keys, modelKeys, saves, s, ts, r.value, m);
      }
      SameActive(p, ppRank, files, r.value);
    }
  }

  lemma SameActive<V>(p: Parallel, ppRank: nat, files: Files<V>, after: Files<V>)
    requires files.Keys == after.Keys
    ensures forall m: nat :: Active(p, ppRank, files, m) <==> Active(p, ppRank, after, m)
  {
    hide TargetAt, ModelRanks;
  }

  lemma PushAtRank<V>(p: Parallel, ppRank: nat, files: Files<V>, keys: set<Key>, modelKeys: set<string>,
      saves: seq<Save<V>>, s: Save<V>, m: nat)
    requires Holds(p, ppRank, files, keys, modelKeys, saves) && Active(p, ppRank, files, m) && Applies(p, s, m)
    ensures CanPush(files, TargetAt(p, ppRank, m), s) <==> LastFits(p, saves, s, m, modelKeys)
  {
    PieceOfRank(p, ppRank, s, m);
    hide TargetAt, Piece, Dict, ModelRanks;
  }

  lemma CanPushIffFits<V>(p: Parallel, ppRank: nat, files: Files<V>, keys: set<Key>, modelKeys: set<string>,
      saves: seq<Save<V>>, s: Save<V>, ts: seq<Target>)
    requires Holds(p, ppRank, files, keys, modelKeys, saves)
    requires forall t :: t in ts <==> YieldedFrom(p, ppRank, Group(s), 0, t)
    ensures (forall t :: t in ts ==> CanPush(files, t, s)) <==>
      forall m: nat :: Active(p, ppRank, files, m) ==> LastFits(p, saves, s, m, modelKeys)
  {
    hide TargetAt, EpRank, ModelRanks, CanPush, LastFits, Holds, Selected;
    if forall t :: t in ts ==> CanPush(files, t, s) {
      forall m: nat | Active(p, ppRank, files, m)
        ensures LastFits(p, saves, s, m, modelKeys)
      {
        if Applies(p, s, m) {
          assert YieldedFrom(p, ppRank, Group(s), 0, TargetAt(p, ppRank, m));
          PushAtRank(p, ppRank, files, keys, modelKeys, saves, s, m);
        } else {
          NotApplied(p, saves, s, m, modelKeys);
        }
      }
    }
    if forall m: nat :: Active(p, ppRank, files, m) ==> LastFits(p, saves, s, m, modelKeys) {
      forall t | t in ts
        ensures CanPush(files, t, s)
      {
        var m: nat :| 0 <= m < ModelRanks(p) && Selected(p, Group(s), m) && t == TargetAt(p, ppRank, m);
        if t.key in files {
          PushAtRank(p, ppRank, files, keys, modelKeys, saves, s, m);
        } else {
          NotWritten(files, t, s);
        }
      }
    }
  }

  lemma NotApplied<V>(p: Parallel, saves: seq<Save<V>>, s: Save<V>, m: nat, modelKeys: set<string>)
    requires !Applies(p, s, m)
    ensures LastFits(p, saves, s, m, modelKeys)
  {
  }

  lemma NotWritten<V>(files: Files<V>, t: Target, s: Save<V>)
    requires t.key !in files
    ensures CanPush(files, t, s)
  {
  }

  lemma FileStep<V>(p: Parallel, ppRank: nat, files: Files<V>, keys: set<Key>, modelKeys: set<string>,
      saves: seq<Save<V>>, s: Save<V>, ts: seq<Target>, after: Files<V>, m: nat)
    requires p.tpe <= p.tp && ppRank < p.pp && Holds(p, ppRank, files, keys, modelKeys, saves)
      && Active(p, ppRank, files, m)
    requires forall t :: t in ts <==> YieldedFrom(p, ppRank, Group(s), 0, t)
    requires Effect(files, ts, s, after)
    ensures TargetAt(p, ppRank, m).key in after
      && after[TargetAt(p, ppRank, m).key] == FileOf(p, saves + [s], m, modelKeys)
  {
    hide TargetAt, EpRank, ModelRanks, Selected;
    var t := TargetAt(p, ppRank, m);
    if Applies(p, s, m) {
      assert YieldedFrom(p, ppRank, Group(s), 0, t);
      PushAtRank(p, ppRank, files, keys, modelKeys, saves, s, m);
      PieceOfRank(p, ppRank, s, m);
      FileAdds(p, saves, s, m, modelKeys);
    } else {
      forall u | u in ts
        ensures u.key != t.key
      {
        var k: nat :| 0 <= k < ModelRanks(p) && Selected(p, Group(s), k) && u == TargetAt(p, ppRank, k);
        if u.key == t.key {
          KeysDistinct(p, ppRank, k, ppRank, m);
        }
      }
      assert NoTarget(ts, t.key);
      FileAdds(p, saves, s, m, modelKeys);
    }
  }

  lemma FileAdds<V>(p: Parallel, saves: seq<Save<V>>, s: Save<V>, m: nat, modelKeys: set<string>)
    ensures !Applies(p, s, m) ==> FileOf(p, saves + [s], m, modelKeys) == FileOf(p, saves, m, modelKeys)
    ensures Applies(p, s, m) && LastFits(p, saves, s, m, modelKeys) ==>
      FileOf(p, saves + [s], m, modelKeys) == Pushed(FileOf(p, saves, m, modelKeys), TargetAt(p, 0, m), s)
  {
    hide TargetAt, Applies, Piece;
    assert (saves + [s])[..|saves|] == saves;
  }

  /** The files made by `reset_ckpt_name`: every model key empty. */
  ghost predicate Fresh<V>(files: Files<V>, modelKeys: set<string>) {
    forall k :: k in files ==> files[k] == map modelKey | modelKey in modelKeys :: map[]
  }

  /**
   * A whole run from fresh files: it fails exactly when two saves meet under one name in one file, a shard is
   * missing or a model key does not exist; otherwise every file holds exactly what was meant for it.
   */
  lemma {:induction false} RunStores<V>(p: Parallel, ppRank: nat, files: Files<V>, modelKeys: set<string>,
      saves: seq<Save<V>>)
    requires p.tpe <= p.tp && ppRank < p.pp && Fresh(files, modelKeys)
    ensures Run(p, ppRank, files, saves).Returned? <==> AllFit(p, ppRank, files, modelKeys, saves)
    ensures Run(p, ppRank, files, saves).Returned? ==>
      Holds(p, ppRank, Run(p, ppRank, files, saves).value, files.Keys, modelKeys, saves)
  {
    hide TargetAt, EpRank, ModelRanks, Executed, Fits, LastFits;
    if saves == [] {
      FreshHolds(p, ppRank, files, modelKeys);
    } else {
      var init, s := saves[..|saves| - 1], saves[|saves| - 1];
      assert saves == init + [s];
      RunStores(p, ppRank, files, modelKeys, init);
      var before := Run(p, ppRank, files, init);
      if before.Returned? {
        SaveStep(p, ppRank, before.value, files.Keys, modelKeys, init, s);
        SameActive(p, ppRank, files, before.value);
        forall m: nat | Active(p, ppRank, files, m)
          ensures Fits(p, saves, m, modelKeys) <==> LastFits(p, init, s, m, modelKeys)
        {
          FitsSnoc(p, init, s, m, modelKeys);
        }
      } else {
        var m: nat :| Active(p, ppRank, files, m) && !Fits(p, init, m, modelKeys);
        if Fits(p, saves, m, modelKeys) {
          FitsInit(p, init, s, m, modelKeys);
        }
      }
    }
  }

  lemma FreshHolds<V>(p: Parallel, ppRank: nat, files: Files<V>, modelKeys: set<string>)
    requires Fresh(files, modelKeys)
    ensures Holds(p, ppRank, files, files.Keys, modelKeys, []) && AllFit(p, ppRank, files, modelKeys, [])
  {
    hide TargetAt, ModelRanks;
    forall m: nat | Active(p, ppRank, files, m)
      ensures files[TargetAt(p, ppRank, m).key] == FileOf<V>(p, [], m, modelKeys)
    {
    }
  }
}
