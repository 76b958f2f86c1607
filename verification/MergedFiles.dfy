/** `merge_checkpoint_dict`: layers converted apart and merged give the checkpoint of one conversion. */
module MergedFiles {
  import opened Wrappers
  import opened Lists
  import opened CheckpointKeys
  import opened CheckpointStore

  /** The dictionary under a key; an empty one if the key is new. */
  function At<K, L, V>(m: map<K, map<L, V>>, k: K): map<L, V> {
    if k in m then m[k] else map[]
  }

  /** Some name is in both under the same file and model key. */
  ghost predicate Clash<V>(a: Files<V>, b: Files<V>) {
    exists k, modelKey, name :: NamedIn(a, k, modelKey, name) && NamedIn(b, k, modelKey, name)
  }

  predicate NamedIn<V>(files: Files<V>, k: Key, modelKey: string, name: Name) {
    k in files && modelKey in files[k] && name in files[k][modelKey]
  }

  function JoinedNames<V>(a: map<string, map<Name, V>>, b: map<string, map<Name, V>>): map<string, map<Name, V>> {
    map modelKey | modelKey in a.Keys + b.Keys ::
      At(a, modelKey) + At(b, modelKey)
  }

  function Joined<V>(a: Files<V>, b: Files<V>): Files<V> {
    map k | k in a.Keys + b.Keys :: JoinedNames(At(a, k), At(b, k))
  }

  /** The outer loop, one checkpoint after the other; a name that is there already raises. */
  ghost function Merged<V>(parts: seq<Files<V>>): Outcome<Files<V>> {
    if parts == [] then Returned(map[])
    else
      var before :- Merged(parts[..|parts| - 1]);
      if Clash(before, parts[|parts| - 1]) then Raised else Returned(Joined(before, parts[|parts| - 1]))
  }

  /** The names of one dictionary; a name already present raises. */
  method MergeNames<V>(all: map<Name, V>, one: map<Name, V>) returns (r: Outcome<map<Name, V>>)
    ensures r.Raised? <==> exists name :: name in all && name in one
    ensures r.Returned? ==> r.value == all + one
  {
    var merged := all;
    var todo := one.Keys;
    while todo != {}
      invariant todo <= one.Keys
      invariant forall name :: name in one && name !in todo ==> name !in all
      invariant merged == all + map name | name in one && name !in todo :: one[name]
      decreases todo
    {
      var name :| name in todo;
      if name in merged {
        return Raised;
      }
      merged := merged[name := one[name]];
      todo := todo - {name};
    }
    assert (map name | name in one && name !in todo :: one[name]) == one;
    r := Returned(merged);
  }

  ghost predicate SharesName<V>(a: map<string, map<Name, V>>, b: map<string, map<Name, V>>, modelKey: string) {
    modelKey in a && modelKey in b && exists name :: name in a[modelKey] && name in b[modelKey]
  }

  /** The model keys of `one` outside `todo` have been joined, and no name was there already. */
  ghost predicate ModelsJoined<V>(all: map<string, map<Name, V>>, one: map<string, map<Name, V>>,
      merged: map<string, map<Name, V>>, todo: set<string>) {
    && todo <= one.Keys && merged.Keys == all.Keys + (one.Keys - todo)
    && (forall modelKey :: modelKey in merged ==>
      merged[modelKey]
        == if modelKey in one && modelKey !in todo then At(all, modelKey) + one[modelKey] else At(all, modelKey))
    && (forall modelKey :: modelKey in one && modelKey !in todo ==> !SharesName(all, one, modelKey))
  }

  lemma ModelsStart<V>(all: map<string, map<Name, V>>, one: map<string, map<Name, V>>)
    ensures ModelsJoined(all, one, all, one.Keys)
  {
  }

  lemma ModelsAt<V>(all: map<string, map<Name, V>>, one: map<string, map<Name, V>>, merged: map<string, map<Name, V>>,
      todo: set<string>, modelKey: string)
    requires ModelsJoined(all, one, merged, todo) && modelKey in todo
    ensures modelKey in one && At(merged, modelKey) == At(all, modelKey)
    ensures SharesName(all, one, modelKey) <==> exists name :: name in At(all, modelKey) && name in one[modelKey]
  {
    SharesAt(all, one, modelKey);
    hide SharesName;
  }

  lemma SharesAt<V>(all: map<string, map<Name, V>>, one: map<string, map<Name, V>>, modelKey: string)
    requires modelKey in one
    ensures SharesName(all, one, modelKey) <==> exists name :: name in At(all, modelKey) && name in one[modelKey]
  {
  }

  lemma ModelsNext<V>(all: map<string, map<Name, V>>, one: map<string, map<Name, V>>, merged: map<string, map<Name, V>>,
      todo: set<string>, modelKey: string, names: map<Name, V>)
    requires ModelsJoined(all, one, merged, todo) && modelKey in todo && modelKey in one
      && !SharesName(all, one, modelKey)
    requires names == At(all, modelKey) + one[modelKey]
    ensures ModelsJoined(all, one, merged[modelKey := names], todo - {modelKey})
  {
    hide SharesName, At;
  }

  lemma ModelsEnd<V>(all: map<string, map<Name, V>>, one: map<string, map<Name, V>>, merged: map<string, map<Name, V>>)
    requires ModelsJoined(all, one, merged, {})
    ensures merged == JoinedNames(all, one) && forall modelKey :: !SharesName(all, one, modelKey)
  {
    NoneShared(all, one);
    hide SharesName;
    forall modelKey | modelKey in merged
      ensures merged[modelKey] == JoinedNames(all, one)[modelKey]
    {
      ModelEnd(all, one, merged, modelKey);
    }
    hide At;
  }

  lemma ModelEnd<V>(all: map<string, map<Name, V>>, one: map<string, map<Name, V>>, merged: map<string, map<Name, V>>,
      modelKey: string)
    requires ModelsJoined(all, one, merged, {}) && modelKey in merged
    ensures merged[modelKey] == At(all, modelKey) + At(one, modelKey)
  {
    hide SharesName;
    assert At(all, modelKey) + map[] == At(all, modelKey);
  }

  lemma NoneShared<V>(all: map<string, map<Name, V>>, one: map<string, map<Name, V>>)
    requires forall modelKey :: modelKey in one ==> !SharesName(all, one, modelKey)
    ensures forall modelKey :: !SharesName(all, one, modelKey)
  {
  }

  /** The dictionaries of one file, model key by model key. */
  method MergeModels<V>(all: map<string, map<Name, V>>, one: map<string, map<Name, V>>)
      returns (r: Outcome<map<string, map<Name, V>>>)
    ensures r.Raised? <==> exists modelKey :: SharesName(all, one, modelKey)
    ensures r.Returned? ==> r.value == JoinedNames(all, one)
  {
    var merged := all;
    var todo := one.Keys;
    hide ModelsJoined, SharesName, JoinedNames;
    ModelsStart(all, one);
    while todo != {}
      invariant ModelsJoined(all, one, merged, todo)
      decreases todo
    {
      var modelKey :| modelKey in todo;
      ModelsAt(all, one, merged, todo, modelKey);
      var names := MergeNames(At(merged, modelKey), one[modelKey]);
      if names.Raised? {
        assert SharesName(all, one, modelKey);
        return Raised;
      }
      ModelsNext(all, one, merged, todo, modelKey, names.value);
      merged := merged[modelKey := names.value];
      todo := todo - {modelKey};
    }
    ModelsEnd(all, one, merged);
    r := Returned(merged);
  }

  ghost predicate FileClash<V>(a: Files<V>, b: Files<V>, k: Key) {
    k in a && k in b && exists modelKey :: SharesName(a[k], b[k], modelKey)
  }

  lemma ClashByFile<V>(a: Files<V>, b: Files<V>)
    ensures Clash(a, b) <==> exists k :: FileClash(a, b, k)
  {
    if Clash(a, b) {
      var k, modelKey, name :| NamedIn(a, k, modelKey, name) && NamedIn(b, k, modelKey, name);
      assert SharesName(a[k], b[k], modelKey);
      assert FileClash(a, b, k);
    }
    if exists k :: FileClash(a, b, k) {
      var k :| FileClash(a, b, k);
      var modelKey :| SharesName(a[k], b[k], modelKey);
      var name :| name in a[k][modelKey] && name in b[k][modelKey];
      assert NamedIn(a, k, modelKey, name) && NamedIn(b, k, modelKey, name);
    }
  }

  /** The files of `one` outside `todo` have been joined, and no name was there already. */
  ghost predicate FilesJoined<V>(all: Files<V>, one: Files<V>, merged: Files<V>, todo: set<Key>) {
    && todo <= one.Keys && merged.Keys == all.Keys + (one.Keys - todo)
    && (forall k :: k in merged ==>
      merged[k] == if k in one && k !in todo then JoinedNames(At(all, k), one[k]) else At(all, k))
    && (forall k :: k in one && k !in todo ==> !FileClash(all, one, k))
  }

  lemma FilesStart<V>(all: Files<V>, one: Files<V>)
    ensures FilesJoined(all, one, all, one.Keys)
  {
  }

  lemma FilesAt<V>(all: Files<V>, one: Files<V>, merged: Files<V>, todo: set<Key>, k: Key)
    requires FilesJoined(all, one, merged, todo) && k in todo
    ensures k in one && At(merged, k) == At(all, k)
    ensures FileClash(all, one, k) <==> exists modelKey :: SharesName(At(all, k), one[k], modelKey)
  {
    hide JoinedNames, FileClash, SharesName;
    ClashAt(all, one, k);
  }

  lemma FilesNext<V>(all: Files<V>, one: Files<V>, merged: Files<V>, todo: set<Key>, k: Key,
      models: map<string, map<Name, V>>)
    requires FilesJoined(all, one, merged, todo) && k in todo && k in one && !FileClash(all, one, k)
    requires models == JoinedNames(At(all, k), one[k])
    ensures FilesJoined(all, one, merged[k := models], todo - {k})
  {
    hide JoinedNames, FileClash, At;
  }

  lemma ClashAt<V>(all: Files<V>, one: Files<V>, k: Key)
    requires k in one
    ensures FileClash(all, one, k) <==> exists modelKey :: SharesName(At(all, k), one[k], modelKey)
  {
    if k in all {
      assert At(all, k) == all[k];
      hide SharesName;
    } else {
      assert forall modelKey :: !SharesName(map[], one[k], modelKey);
    }
  }

  lemma FilesEnd<V>(all: Files<V>, one: Files<V>, merged: Files<V>)
    requires FilesJoined(all, one, merged, {})
    ensures merged == Joined(all, one) && forall k :: !FileClash(all, one, k)
  {
    forall k | k in merged
      ensures merged[k] == JoinedNames(At(all, k), At(one, k))
    {
      NoNames(At(all, k));
    }
    hide JoinedNames, FileClash;
  }

  lemma NoNames<V>(a: map<string, map<Name, V>>)
    ensures JoinedNames(a, map[]) == a
  {
    forall modelKey | modelKey in a
      ensures a[modelKey] + map[] == a[modelKey]
    {
    }
  }

  /** The files of one checkpoint. */
  method MergeFiles<V>(all: Files<V>, one: Files<V>) returns (r: Outcome<Files<V>>)
    ensures r.Raised? <==> Clash(all, one)
    ensures r.Returned? ==> r.value == Joined(all, one)
  {
    ClashByFile(all, one);
    hide FilesJoined, FileClash, JoinedNames, Joined, SharesName, Clash;
    FilesStart(all, one);
    var merged := all;
    var todo := one.Keys;
    while todo != {}
      invariant FilesJoined(all, one, merged, todo)
      decreases todo
    {
      var k :| k in todo;
      FilesAt(all, one, merged, todo, k);
      var models := MergeModels(At(merged, k), one[k]);
      if models.Raised? {
        assert FileClash(all, one, k);
        return Raised;
      }
      FilesNext(all, one, merged, todo, k, models.value);
      merged := merged[k := models.value];
      todo := todo - {k};
    }
    FilesEnd(all, one, merged);
    r := Returned(merged);
  }

  /** `merge_checkpoint_dict`. */
  method MergeCheckpointDict<V>(parts: seq<Files<V>>) returns (r: Outcome<Files<V>>)
    ensures r == Merged(parts)
  {
    var all: Files<V> := map[];
    hide Clash, Joined;
    for i := 0 to |parts|
      invariant Merged(parts[..i]) == Returned(all)
    {
      assert parts[..i + 1][..i] == parts[..i];
      var merged := MergeFiles(all, parts[i]);
      if merged.Raised? {
        MergedStops(parts, i + 1);
        return Raised;
      }
      all := merged.value;
    }
    assert parts[..|parts|] == parts;
    r := Returned(all);
  }

  lemma {:induction false} MergedStops<V>(parts: seq<Files<V>>, i: nat)
    requires i <= |parts| && Merged(parts[..i]).Raised?
    ensures Merged(parts).Raised?
    decreases |parts| - i
  {
    if i < |parts| {
      assert parts[..i + 1][..i] == parts[..i];
      MergedStops(parts, i + 1);
    } else {
      assert parts[..i] == parts;
    }
  }

  // ---------------------------------------------------------------- two conversions into equal fresh files

  lemma {:induction false} DictConcat<V>(p: Parallel, a: seq<Save<V>>, b: seq<Save<V>>, m: nat, modelKey: string)
    ensures Dict(p, a + b, m, modelKey) == Dict(p, a, m, modelKey) + Dict(p, b, m, modelKey)
  {
    if b == [] {
      assert a + b == a;
    } else {
      assert (a + b)[..|a + b| - 1] == a + b[..|b| - 1];
      DictConcat(p, a, b[..|b| - 1], m, modelKey);
      hide TargetAt, Piece, Applies;
    }
  }

  /** Every file belongs to a model rank. */
  ghost predicate RankFiles<V>(p: Parallel, ppRank: nat, files: Files<V>) {
    forall k :: k in files ==> HasRank(p, ppRank, k)
  }

  ghost predicate HasRank(p: Parallel, ppRank: nat, k: Key) {
    exists m: nat :: m < ModelRanks(p) && TargetAt(p, ppRank, m).key == k
  }

  lemma JoinedFile<V>(p: Parallel, m: nat, modelKeys: set<string>, a: seq<Save<V>>, b: seq<Save<V>>)
    ensures JoinedNames(FileOf(p, a, m, modelKeys), FileOf(p, b, m, modelKeys)) == FileOf(p, a + b, m, modelKeys)
  {
    hide Dict;
    forall modelKey | modelKey in modelKeys
      ensures Dict(p, a + b, m, modelKey) == Dict(p, a, m, modelKey) + Dict(p, b, m, modelKey)
    {
      DictConcat(p, a, b, m, modelKey);
    }
  }

  lemma JoinedHolds<V>(p: Parallel, ppRank: nat, keys: set<Key>, modelKeys: set<string>, fa: Files<V>, a: seq<Save<V>>,
      fb: Files<V>, b: seq<Save<V>>)
    requires Holds(p, ppRank, fa, keys, modelKeys, a) && Holds(p, ppRank, fb, keys, modelKeys, b)
    ensures Holds(p, ppRank, Joined(fa, fb), keys, modelKeys, a + b)
  {
    hide TargetAt, ModelRanks, FileOf, JoinedNames;
    forall m: nat | Active(p, ppRank, Joined(fa, fb), m)
      ensures Joined(fa, fb)[TargetAt(p, ppRank, m).key] == FileOf(p, a + b, m, modelKeys)
    {
      JoinedFile(p, m, modelKeys, a, b);
      assert Active(p, ppRank, fa, m) && Active(p, ppRank, fb, m);
    }
  }

  /** Files that hold the same are the same. */
  lemma HoldsUnique<V>(p: Parallel, ppRank: nat, keys: set<Key>, modelKeys: set<string>, f: Files<V>, g: Files<V>,
      saves: seq<Save<V>>)
    requires Holds(p, ppRank, f, keys, modelKeys, saves) && Holds(p, ppRank, g, keys, modelKeys, saves)
      && RankFiles(p, ppRank, f)
    ensures f == g
  {
    hide TargetAt, ModelRanks, Dict, FileOf;
    forall k | k in f
      ensures f[k] == g[k]
    {
      var m: nat :| m < ModelRanks(p) && TargetAt(p, ppRank, m).key == k;
      assert Active(p, ppRank, f, m) && Active(p, ppRank, g, m);
    }
  }

  /** Two saves of the two lists that meet at one rank under one name. */
  ghost predicate Meet<V>(p: Parallel, a: seq<Save<V>>, b: seq<Save<V>>, m: nat, i: nat, j: nat) {
    && i < |a| && j < |b| && Applies(p, a[i], m) && Applies(p, b[j], m)
    && a[i].modelKey == b[j].modelKey && a[i].name == b[j].name
  }

  /** If both lists fit a rank, their concatenation fits it unless two of their saves meet. */
  lemma FitsConcat<V>(p: Parallel, a: seq<Save<V>>, b: seq<Save<V>>, m: nat, modelKeys: set<string>)
    requires Fits(p, a, m, modelKeys) && Fits(p, b, m, modelKeys)
    ensures Fits(p, a + b, m, modelKeys) <==> forall i: nat, j: nat :: !Meet(p, a, b, m, i, j)
  {
    hide TargetAt, Applies, Piece;
    var all := a + b;
    assert forall i :: 0 <= i < |a| ==> all[i] == a[i];
    assert forall j :: 0 <= j < |b| ==> all[|a| + j] == b[j];
    if Fits(p, all, m, modelKeys) {
      forall i: nat, j: nat
        ensures !Meet(p, a, b, m, i, j)
      {
        if i < |a| && j < |b| {
          assert all[i] == a[i] && all[|a| + j] == b[j];
        }
      }
    }
    if forall i: nat, j: nat :: !Meet(p, a, b, m, i, j) {
      forall j | 0 <= j < |all| && Applies(p, all[j], m)
        ensures Piece(all[j], TargetAt(p, 0, m)).Some? && all[j].modelKey in modelKeys
        ensures forall i :: 0 <= i < j && Applies(p, all[i], m) ==>
          (all[i].modelKey, all[i].name) != (all[j].modelKey, all[j].name)
      {
        if j >= |a| {
          forall i | 0 <= i < j && Applies(p, all[i], m)
            ensures (all[i].modelKey, all[i].name) != (all[j].modelKey, all[j].name)
          {
            if i < |a| {
              assert !Meet(p, a, b, m, i, j - |a|);
            } else {
              assert Applies(p, b[i - |a|], m) && Applies(p, b[j - |a|], m);
            }
          }
        } else {
          assert Applies(p, a[j], m);
        }
      }
    }
  }

  /** The files of the two conversions clash exactly when two of their saves meet at a rank being written. */
  lemma ClashIffMeet<V>(p: Parallel, ppRank: nat, keys: set<Key>, modelKeys: set<string>, fa: Files<V>, a: seq<Save<V>>,
      fb: Files<V>, b: seq<Save<V>>)
    requires Holds(p, ppRank, fa, keys, modelKeys, a) && Holds(p, ppRank, fb, keys, modelKeys, b)
      && RankFiles(p, ppRank, fa)
    requires AllFit(p, ppRank, fa, modelKeys, a) && AllFit(p, ppRank, fa, modelKeys, b)
    ensures Clash(fa, fb) <==> exists m: nat :: Active(p, ppRank, fa, m) && SomeMeet(p, a, b, m)
  {
    hide *;
    if Clash(fa, fb) {
      var m := ClashMeets(p, ppRank, keys, modelKeys, fa, a, fb, b);
    }
    if exists m: nat :: Active(p, ppRank, fa, m) && SomeMeet(p, a, b, m) {
      var m: nat :| Active(p, ppRank, fa, m) && SomeMeet(p, a, b, m);
      MeetingRank(p, ppRank, keys, modelKeys, fa, a, fb, b, m);
    }
  }

  lemma MeetingRank<V>(p: Parallel, ppRank: nat, keys: set<Key>, modelKeys: set<string>, fa: Files<V>, a: seq<Save<V>>,
      fb: Files<V>, b: seq<Save<V>>, m: nat)
    requires Holds(p, ppRank, fa, keys, modelKeys, a) && Holds(p, ppRank, fb, keys, modelKeys, b)
    requires AllFit(p, ppRank, fa, modelKeys, a) && AllFit(p, ppRank, fa, modelKeys, b)
    requires Active(p, ppRank, fa, m) && SomeMeet(p, a, b, m)
    ensures Clash(fa, fb)
  {
    hide TargetAt, ModelRanks, Dict, Applies, Piece, Fits, Clash, Holds;
    var i: nat, j: nat :| Meet(p, a, b, m, i, j);
    MeetingClashes(p, ppRank, keys, modelKeys, fa, a, fb, b, m, i, j);
  }

  /** A name is in a file only if some save put it there. */
  lemma NamedBySave<V>(p: Parallel, ppRank: nat, keys: set<Key>, modelKeys: set<string>, files: Files<V>,
      saves: seq<Save<V>>, m: nat, modelKey: string, name: Name) returns (i: nat)
    requires Holds(p, ppRank, files, keys, modelKeys, saves) && Active(p, ppRank, files, m)
    requires NamedIn(files, TargetAt(p, ppRank, m).key, modelKey, name)
    ensures i < |saves| && Applies(p, saves[i], m) && saves[i].modelKey == modelKey && saves[i].name == name
  {
    hide TargetAt, ModelRanks, Dict, Applies, Piece;
    DictNames(p, saves, m, modelKey, name);
    i :| 0 <= i < |saves| && Applies(p, saves[i], m) && saves[i].modelKey == modelKey && saves[i].name == name
      && Piece(saves[i], TargetAt(p, 0, m)).Some?;
  }

  lemma RankOfFile<V>(p: Parallel, ppRank: nat, files: Files<V>, k: Key) returns (m: nat)
    requires RankFiles(p, ppRank, files) && k in files
    ensures Active(p, ppRank, files, m) && TargetAt(p, ppRank, m).key == k
  {
    hide TargetAt, ModelRanks;
    assert HasRank(p, ppRank, k);
    m :| m < ModelRanks(p) && TargetAt(p, ppRank, m).key == k;
  }

  lemma ClashMeets<V>(p: Parallel, ppRank: nat, keys: set<Key>, modelKeys: set<string>, fa: Files<V>, a: seq<Save<V>>,
      fb: Files<V>, b: seq<Save<V>>) returns (m: nat)
    requires Holds(p, ppRank, fa, keys, modelKeys, a) && Holds(p, ppRank, fb, keys, modelKeys, b)
      && RankFiles(p, ppRank, fa)
    requires Clash(fa, fb)
    ensures Active(p, ppRank, fa, m) && SomeMeet(p, a, b, m)
  {
    hide TargetAt, ModelRanks, Dict, Applies, Piece, FileOf, RankFiles;
    var k, modelKey, name :| NamedIn(fa, k, modelKey, name) && NamedIn(fb, k, modelKey, name);
    m := RankOfFile(p, ppRank, fa, k);
    assert Active(p, ppRank, fb, m);
    hide Holds, NamedIn;
    var i := NamedBySave(p, ppRank, keys, modelKeys, fa, a, m, modelKey, name);
    var j := NamedBySave(p, ppRank, keys, modelKeys, fb, b, m, modelKey, name);
    assert Meet(p, a, b, m, i, j);
  }

  ghost predicate SomeMeet<V>(p: Parallel, a: seq<Save<V>>, b: seq<Save<V>>, m: nat) {
    exists i: nat, j: nat :: Meet(p, a, b, m, i, j)
  }

  lemma MeetingClashes<V>(p: Parallel, ppRank: nat, keys: set<Key>, modelKeys: set<string>, fa: Files<V>,
      a: seq<Save<V>>, fb: Files<V>, b: seq<Save<V>>, m: nat, i: nat, j: nat)
    requires Holds(p, ppRank, fa, keys, modelKeys, a) && Holds(p, ppRank, fb, keys, modelKeys, b)
    requires Active(p, ppRank, fa, m) && Fits(p, a, m, modelKeys) && Fits(p, b, m, modelKeys) && Meet(p, a, b, m, i, j)
    ensures Clash(fa, fb)
  {
    DictValue(p, a, m, modelKeys, i);
    DictValue(p, b, m, modelKeys, j);
    hide TargetAt, ModelRanks, Dict, Applies, Piece;
    assert Active(p, ppRank, fb, m);
    var k := TargetAt(p, ppRank, m).key;
    assert a[i].modelKey in modelKeys;
    assert NamedIn(fa, k, a[i].modelKey, a[i].name) && NamedIn(fb, k, a[i].modelKey, a[i].name);
  }

  /** Two conversions merge exactly when one conversion of both succeeds, and then to the same files. */
  lemma TwoConversions<V>(p: Parallel, ppRank: nat, files: Files<V>, modelKeys: set<string>, a: seq<Save<V>>,
      b: seq<Save<V>>)
    requires p.tpe <= p.tp && ppRank < p.pp && Fresh(files, modelKeys) && RankFiles(p, ppRank, files)
    requires Run(p, ppRank, files, a).Returned? && Run(p, ppRank, files, b).Returned?
    ensures var fa, fb := Run(p, ppRank, files, a).value, Run(p, ppRank, files, b).value;
      Run(p, ppRank, files, a + b) == if Clash(fa, fb) then Raised else Returned(Joined(fa, fb))
  {
    RunStores(p, ppRank, files, modelKeys, a);
    RunStores(p, ppRank, files, modelKeys, b);
    RunStores(p, ppRank, files, modelKeys, a + b);
    var fa, fb := Run(p, ppRank, files, a).value, Run(p, ppRank, files, b).value;
    SameActive(p, ppRank, files, fa);
    hide TargetAt, ModelRanks, Run, Fits, Fresh, Joined, SomeMeet, Clash;
    ClashIffMeet(p, ppRank, files.Keys, modelKeys, fa, a, fb, b);
    forall m: nat | Active(p, ppRank, files, m)
      ensures Fits(p, a + b, m, modelKeys) <==> !SomeMeet(p, a, b, m)
    {
      FitsConcat(p, a, b, m, modelKeys);
      SomeMeetMeans(p, a, b, m);
    }
    JoinedHolds(p, ppRank, files.Keys, modelKeys, fa, a, fb, b);
    if Run(p, ppRank, files, a + b).Returned? {
      HoldsUnique(p, ppRank, files.Keys, modelKeys, Run(p, ppRank, files, a + b).value, Joined(fa, fb), a + b);
    }
  }

  lemma SomeMeetMeans<V>(p: Parallel, a: seq<Save<V>>, b: seq<Save<V>>, m: nat)
    ensures SomeMeet(p, a, b, m) <==> !forall i: nat, j: nat :: !Meet(p, a, b, m, i, j)
  {
  }

  // ---------------------------------------------------------------- any number of conversions

  /** The files every layer was converted into by itself. */
  ghost function Converted<V>(p: Parallel, ppRank: nat, files: Files<V>, layers: seq<seq<Save<V>>>): seq<Files<V>>
    requires forall i :: 0 <= i < |layers| ==> Run(p, ppRank, files, layers[i]).Returned?
  {
    seq(|layers|, i requires 0 <= i < |layers| => Run(p, ppRank, files, layers[i]).value)
  }

  lemma ConvertedSnoc<V>(p: Parallel, ppRank: nat, files: Files<V>, layers: seq<seq<Save<V>>>)
    requires layers != [] && forall i :: 0 <= i < |layers| ==> Run(p, ppRank, files, layers[i]).Returned?
    ensures var n := |layers| - 1;
      Converted(p, ppRank, files, layers)
        == Converted(p, ppRank, files, layers[..n]) + [Run(p, ppRank, files, layers[n]).value]
  {
    hide Run;
  }

  lemma MergedSnoc<V>(parts: seq<Files<V>>, last: Files<V>)
    ensures Merged(parts + [last]) ==
      if Merged(parts).Raised? || Clash(Merged(parts).value, last) then Raised
      else Returned(Joined(Merged(parts).value, last))
  {
    assert (parts + [last])[..|parts|] == parts;
  }

  lemma PrefixRaises<V>(p: Parallel, ppRank: nat, files: Files<V>, a: seq<Save<V>>, b: seq<Save<V>>)
    requires Run(p, ppRank, files, a).Raised?
    ensures Run(p, ppRank, files, a + b).Raised?
  {
    assert (a + b)[..|a|] == a;
    RunStops(p, ppRank, files, a + b, |a|);
  }

  lemma UnfoldLayers<V>(p: Parallel, ppRank: nat, files: Files<V>, layers: seq<seq<Save<V>>>)
    requires layers != [] && forall i :: 0 <= i < |layers| ==> Run(p, ppRank, files, layers[i]).Returned?
    ensures var init, last := layers[..|layers| - 1], layers[|layers| - 1];
      && Concat(layers) == Concat(init) + last
      && var before, f := Merged(Converted(p, ppRank, files, init)), Run(p, ppRank, files, last).value;
         Merged(Converted(p, ppRank, files, layers)) ==
           if before.Raised? || Clash(before.value, f) then Raised else Returned(Joined(before.value, f))
  {
    ConvertedSnoc(p, ppRank, files, layers);
    hide Run;
    MergedSnoc(Converted(p, ppRank, files, layers[..|layers| - 1]), Run(p, ppRank, files, layers[|layers| - 1]).value);
  }

  lemma OneLayer<V>(p: Parallel, ppRank: nat, files: Files<V>, layer: seq<Save<V>>)
    requires Run(p, ppRank, files, layer).Returned?
    ensures Concat([layer]) == layer && Merged(Converted(p, ppRank, files, [layer])) == Run(p, ppRank, files, layer)
  {
    UnfoldLayers(p, ppRank, files, [layer]);
    assert [layer][..0] == [];
    hide Run;
    JoinedWithNothing(Run(p, ppRank, files, layer).value);
    hide Joined, Clash;
    assert Concat([layer]) == [] + layer;
  }

  /** Converting the layers of a pipeline rank apart and merging does what converting them one after the other does. */
  lemma {:induction false} MergeIsOneConversion<V>(p: Parallel, ppRank: nat, files: Files<V>, modelKeys: set<string>,
      layers: seq<seq<Save<V>>>)
    requires p.tpe <= p.tp && ppRank < p.pp && Fresh(files, modelKeys) && RankFiles(p, ppRank, files) && layers != []
    requires forall i :: 0 <= i < |layers| ==> Run(p, ppRank, files, layers[i]).Returned?
    ensures Merged(Converted(p, ppRank, files, layers)) == Run(p, ppRank, files, Concat(layers))
  {
    hide *;
    var n := |layers| - 1;
    if n == 0 {
      assert layers == [layers[0]];
      OneLayer(p, ppRank, files, layers[0]);
    } else {
      var init, last := layers[..n], layers[n];
      UnfoldLayers(p, ppRank, files, layers);
      MergeIsOneConversion(p, ppRank, files, modelKeys, init);
      if Run(p, ppRank, files, Concat(init)).Returned? {
        TwoConversions(p, ppRank, files, modelKeys, Concat(init), last);
      } else {
        PrefixRaises(p, ppRank, files, Concat(init), last);
      }
    }
  }

  lemma NamesWithNothing<V>(f: map<string, map<Name, V>>)
    ensures JoinedNames(map[], f) == f
  {
    forall modelKey | modelKey in f
      ensures map[] + f[modelKey] == f[modelKey]
    {
    }
  }

  lemma JoinedWithNothing<V>(f: Files<V>)
    ensures !Clash(map[], f) && Joined(map[], f) == f
  {
    forall k | k in f
      ensures JoinedNames(map[], f[k]) == f[k]
    {
      NamesWithNothing(f[k]);
    }
    hide JoinedNames;
  }
}
