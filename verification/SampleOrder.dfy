/** Which sample of which fetched batch `BatchResizingIterator` hands out when. */
module SampleOrder {
  import opened Arithmetic
  import opened BatchTables
  import opened BatchIterator

  ghost function Shuffle(c: Setting, n: nat, i: nat): (j: nat)
    requires GoodSetting(c) && i < n
    ensures j < n
  {
    PermutationFacts(c.perm(n), n);
    if c.shuffle then c.perm(n)[i] else i
  }

  /** Row `i` of the pieces of one split: row `i` of the batch, or with shuffling the row the permutation names. */
  lemma SplitOrder<V>(c: Setting, b: Batch<V>, size: nat)
    requires GoodSetting(c) && Aligned(b, c.tk) && Divides(size, |b[c.tk]|)
    ensures AllAligned(Split(c, b, size), c.tk) && |Samples(Split(c, b, size), c.tk)| == |b[c.tk]|
    ensures forall i :: 0 <= i < |b[c.tk]| ==>
      Samples(Split(c, b, size), c.tk)[i] == Rows(b, c.tk)[Shuffle(c, |b[c.tk]|, i)]
  {
    var n := |b[c.tk]|;
    PermutedRow(b, c.tk, c.perm(n));
    ShuffledRows(c, b.Keys, b);
    DividesProduct(size, n);
    ChunksInOrder(Shuffled(c, b), c.tk, size, n / size);
    hide Samples, Rows, Chunks, Aligned;
  }

  /** The place in its block of `g` that comes at place `i`. */
  ghost function InBlock(c: Setting, i: nat): nat
    requires GoodSetting(c)
  {
    i / c.global * c.global + Shuffle(c, c.global, i % c.global)
  }

  lemma FirstBlock(i: nat, g: nat)
    requires g > 0 && i < g
    ensures i / g == 0 && i % g == i
  {
  }

  lemma LaterBlock(i: nat, g: nat)
    requires g > 0 && i >= g
    ensures i % g == (i - g) % g && i / g * g == g + (i - g) / g * g
  {
    Remainder(i - g, g);
    ProductNext((i - g) / g + 1, g);
    QuotientUnique(i, g, (i - g) / g + 1, (i - g) % g);
  }

  lemma InBlockNext(c: Setting, i: nat)
    requires GoodSetting(c)
    ensures i < c.global ==> InBlock(c, i) == Shuffle(c, c.global, i) < c.global
    ensures i >= c.global ==> InBlock(c, i) == c.global + InBlock(c, i - c.global)
  {
    hide Shuffle;
    if i < c.global {
      FirstBlock(i, c.global);
    } else {
      LaterBlock(i, c.global);
    }
  }

  /** Global batches, each of the global size. */
  ghost predicate FullSize<V>(c: Setting, bs: seq<Batch<V>>) {
    forall j :: 0 <= j < |bs| ==> c.tk in bs[j] && |bs[j][c.tk]| == c.global
  }

  lemma GoodAligned<V>(c: Setting, keys: set<string>, bs: seq<Batch<V>>)
    requires AllGood(c, keys, bs)
    ensures AllAligned(bs, c.tk)
  {
    hide Aligned, Cuttable;
  }

  lemma PiecesOrder<V>(c: Setting, keys: set<string>, b: Batch<V>)
    requires GoodSetting(c) && Good(c, keys, b)
    ensures Aligned(b, c.tk)
    ensures AllAligned(Pieces(c, keys, b), c.tk) && |Samples(Pieces(c, keys, b), c.tk)| == |Rows(b, c.tk)| == |b[c.tk]|
    ensures forall i :: 0 <= i < |b[c.tk]| ==>
      Samples(Pieces(c, keys, b), c.tk)[i] == Rows(b, c.tk)[Shuffle(c, |b[c.tk]|, i)]
  {
    PieceSizeDivides(c, |b[c.tk]|);
    SplitOrder(c, b, PieceSize(c, |b[c.tk]|));
    hide Split, PieceSize, Cuttable, Divides, Samples, Shuffle;
  }

  /** `out` lists `rows`, each block of `g` in the order of its shuffle. */
  ghost predicate BlockShuffled<T>(c: Setting, rows: seq<T>, out: seq<T>)
    requires GoodSetting(c)
  {
    && |out| == |rows|
    && forall i :: 0 <= i < |rows| ==> InBlock(c, i) < |rows| && out[i] == rows[InBlock(c, i)]
  }

  lemma BlockBehind<T>(c: Setting, first: seq<T>, rows: seq<T>, out: seq<T>, all: seq<T>)
    requires GoodSetting(c) && BlockShuffled(c, rows, out) && |first| == |all| - |out| == c.global
    requires all[|first|..] == out && forall i :: 0 <= i < c.global ==> all[i] == first[Shuffle(c, c.global, i)]
    ensures BlockShuffled(c, first + rows, all)
  {
    hide InBlock, Shuffle, GoodSetting;
    forall i | 0 <= i < |all|
      ensures InBlock(c, i) < |all| && all[i] == (first + rows)[InBlock(c, i)]
    {
      InBlockNext(c, i);
      if i >= c.global {
        assert all[i] == out[i - c.global];
      }
    }
  }

  /** What is handed out for a list of full global batches. */
  lemma {:induction false} MicrosOrder<V>(c: Setting, keys: set<string>, bs: seq<Batch<V>>)
    requires GoodSetting(c) && AllGood(c, keys, bs) && FullSize(c, bs)
    ensures AllAligned(bs, c.tk) && AllAligned(MicrosOf(c, keys, bs), c.tk)
    ensures BlockShuffled(c, Samples(bs, c.tk), Samples(MicrosOf(c, keys, bs), c.tk))
  {
    GoodAligned(c, keys, bs);
    if bs != [] {
      var first, rest := bs[0], bs[1..];
      PiecesOrder(c, keys, first);
      MicrosOrder(c, keys, rest);
      FirstMicros(c, keys, bs);
      var head, tail := Pieces(c, keys, first), MicrosOf(c, keys, rest);
      hide *;
      SamplesConcat(head, tail, c.tk);
      BlockBehind(c, Rows(first, c.tk), Samples(rest, c.tk), Samples(tail, c.tk), Samples(head + tail, c.tk));
    }
  }

  lemma FirstMicros<V>(c: Setting, keys: set<string>, bs: seq<Batch<V>>)
    requires GoodSetting(c) && AllGood(c, keys, bs) && FullSize(c, bs) && AllAligned(bs, c.tk) && bs != []
    ensures Good(c, keys, bs[0]) && AllGood(c, keys, bs[1..]) && Aligned(bs[0], c.tk) && AllAligned(bs[1..], c.tk)
    ensures MicrosOf(c, keys, bs) == Pieces(c, keys, bs[0]) + MicrosOf(c, keys, bs[1..])
    ensures Samples(bs, c.tk) == Rows(bs[0], c.tk) + Samples(bs[1..], c.tk) && |bs[0][c.tk]| == c.global
  {
    hide Pieces, Rows, Aligned, Cuttable, GoodSetting;
  }

  lemma DividesLess(g: nat, n: nat)
    requires Divides(g, n) && n > 0
    ensures n >= g && Divides(g, n - g)
  {
    var k := n / g;
    DividesProduct(g, n);
    ProductNext(k, g);
    ProductNext(1, g);
    QuotientUnique(n - g, g, k - 1, 0);
  }

  lemma {:induction false} InBlockBelow(c: Setting, i: nat, n: nat)
    requires GoodSetting(c) && i < n && Divides(c.global, n)
    ensures InBlock(c, i) < n
  {
    DividesLess(c.global, n);
    InBlockNext(c, i);
    hide InBlock, Divides, Shuffle, GoodSetting;
    if i >= c.global {
      assert c.global > 0;
      InBlockBelow(c, i - c.global, n - c.global);
    }
  }

  /**
   * The row of a fetched batch of `n` samples that is handed out at place `i`: one shuffle if the batch is no multiple
   * of the global size, else one of the whole batch and then one within each global batch.
   */
  ghost function Origin(c: Setting, n: nat, i: nat): (j: nat)
    requires GoodSetting(c) && i < n
    ensures j < n
  {
    if n % c.global != 0 then Shuffle(c, n, i)
    else
      InBlockBelow(c, i, n);
      Shuffle(c, n, InBlock(c, i))
  }

  /** What is handed out for one fetched batch. */
  ghost function Handed<V>(c: Setting, b: Batch<V>): (r: seq<map<string, V>>)
    requires GoodSetting(c) && Aligned(b, c.tk)
    ensures |r| == |b[c.tk]|
  {
    seq(|b[c.tk]|, i requires 0 <= i < |b[c.tk]| => Rows(b, c.tk)[Origin(c, |b[c.tk]|, i)])
  }

  lemma WholeOrder<V>(c: Setting, keys: set<string>, b: Batch<V>)
    requires GoodSetting(c) && Fetchable(c, keys, b) && |b[c.tk]| % c.global != 0
    ensures AllGood(c, keys, GlobalsOf(c, b)) && AllAligned(MicrosOf(c, keys, GlobalsOf(c, b)), c.tk)
    ensures Samples(MicrosOf(c, keys, GlobalsOf(c, b)), c.tk) == Handed(c, b)
  {
    GlobalsOfRows(c, keys, b);
    var gs := GlobalsOf(c, b);
    assert gs == [b] && gs[1..] == [];
    assert MicrosOf(c, keys, gs) == Pieces(c, keys, b) + [];
    assert Pieces(c, keys, b) + [] == Pieces(c, keys, b);
    PiecesOrder(c, keys, b);
    hide Pieces, Samples, Shuffle, Rows;
  }

  lemma GlobalsAreFull<V>(c: Setting, keys: set<string>, b: Batch<V>)
    requires GoodSetting(c) && Fetchable(c, keys, b) && |b[c.tk]| % c.global == 0
    ensures Divides(c.global, |b[c.tk]|) && GlobalsOf(c, b) == Split(c, b, c.global) && FullSize(c, GlobalsOf(c, b))
    ensures AllGood(c, keys, GlobalsOf(c, b))
  {
    GlobalsOfRows(c, keys, b);
    SplitRows(c, keys, b, c.global);
    hide Split, Rows, Aligned, AllRows, GoodSetting;
    forall j | 0 <= j < |GlobalsOf(c, b)|
      ensures c.tk in GlobalsOf(c, b)[j] && |GlobalsOf(c, b)[j][c.tk]| == c.global
    {
      assert IsChunk(GlobalsOf(c, b)[j], keys, c.tk, c.global);
      ChunkSize(GlobalsOf(c, b)[j], keys, c.tk, c.global);
    }
  }

  lemma ChunkSize<V>(b: Batch<V>, keys: set<string>, tk: string, size: nat)
    requires IsChunk(b, keys, tk, size)
    ensures tk in b && |b[tk]| == size
  {
  }

  lemma BlocksOrder<V>(c: Setting, keys: set<string>, b: Batch<V>)
    requires GoodSetting(c) && Fetchable(c, keys, b) && |b[c.tk]| % c.global == 0
    ensures AllGood(c, keys, GlobalsOf(c, b)) && AllAligned(MicrosOf(c, keys, GlobalsOf(c, b)), c.tk)
    ensures Samples(MicrosOf(c, keys, GlobalsOf(c, b)), c.tk) == Handed(c, b)
  {
    GlobalsAreFull(c, keys, b);
    SplitOrder(c, b, c.global);
    MicrosOrder(c, keys, GlobalsOf(c, b));
    hide Split, MicrosOf, GlobalsOf, Samples, Shuffle, Rows, InBlock, GoodSetting, Aligned, Good, FullSize, Divides;
    var n, out := |b[c.tk]|, Samples(MicrosOf(c, keys, GlobalsOf(c, b)), c.tk);
    forall i | 0 <= i < n
      ensures out[i] == Handed(c, b)[i]
    {
      InBlockBelow(c, i, n);
    }
  }

  lemma FetchedOrder<V>(c: Setting, keys: set<string>, b: Batch<V>)
    requires GoodSetting(c) && Fetchable(c, keys, b)
    ensures Aligned(b, c.tk)
    ensures AllGood(c, keys, GlobalsOf(c, b)) && AllAligned(MicrosOf(c, keys, GlobalsOf(c, b)), c.tk)
    ensures Samples(MicrosOf(c, keys, GlobalsOf(c, b)), c.tk) == Handed(c, b)
  {
    if |b[c.tk]| % c.global != 0 {
      WholeOrder(c, keys, b);
    } else {
      BlocksOrder(c, keys, b);
    }
    hide Samples, MicrosOf, GlobalsOf, Handed;
  }

  /** What is handed out for all fetched batches. */
  ghost function AllHanded<V>(c: Setting, feed: seq<Batch<V>>): seq<map<string, V>>
    requires GoodSetting(c) && AllAligned(feed, c.tk)
  {
    if feed == [] then [] else Handed(c, feed[0]) + AllHanded(c, feed[1..])
  }

  /** The samples of the whole stream, in order. */
  lemma {:induction false} StreamOrder<V>(c: Setting, keys: set<string>, feed: seq<Batch<V>>)
    requires GoodSetting(c) && AllFetchable(c, keys, feed)
    ensures AllAligned(feed, c.tk) && AllAligned(MicrosOfFeed(c, keys, feed), c.tk)
    ensures Samples(MicrosOfFeed(c, keys, feed), c.tk) == AllHanded(c, feed)
  {
    hide MicrosOf, GlobalsOf, Handed, Rows, Aligned, Cuttable, GoodSetting;
    if feed != [] {
      FetchedOrder(c, keys, feed[0]);
      StreamOrder(c, keys, feed[1..]);
      var head, tail := MicrosOf(c, keys, GlobalsOf(c, feed[0])), MicrosOfFeed(c, keys, feed[1..]);
      SamplesConcat(head, tail, c.tk);
    }
  }

  lemma UnshuffledRow<V>(c: Setting, b: Batch<V>)
    requires GoodSetting(c) && Aligned(b, c.tk) && !c.shuffle
    ensures Handed(c, b) == Rows(b, c.tk)
  {
    forall i | 0 <= i < |b[c.tk]|
      ensures Origin(c, |b[c.tk]|, i) == i
    {
      Remainder(i, c.global);
    }
  }

  /** Without shuffling the micro-batches, joined, are the fetched batches, joined. */
  lemma {:induction false} UnshuffledOrder<V>(c: Setting, keys: set<string>, feed: seq<Batch<V>>)
    requires GoodSetting(c) && AllFetchable(c, keys, feed) && !c.shuffle
    ensures AllAligned(feed, c.tk) && AllAligned(MicrosOfFeed(c, keys, feed), c.tk)
    ensures Samples(MicrosOfFeed(c, keys, feed), c.tk) == Samples(feed, c.tk)
  {
    StreamOrder(c, keys, feed);
    AllUnshuffled(c, feed);
    hide *;
  }

  lemma {:induction false} AllUnshuffled<V>(c: Setting, feed: seq<Batch<V>>)
    requires GoodSetting(c) && AllAligned(feed, c.tk) && !c.shuffle
    ensures AllHanded(c, feed) == Samples(feed, c.tk)
  {
    hide Handed, Rows, Aligned, GoodSetting;
    if feed != [] {
      UnshuffledRow(c, feed[0]);
      AllUnshuffled(c, feed[1..]);
    }
  }

  // ---------------------------------------------------------------- the log over whole runs

  /** What was taken and what is still to be taken. */
  ghost function Passing<V>(c: Setting, keys: set<string>, feed: seq<Batch<V>>, s: View<V>): seq<Batch<V>>
    requires Ok(c, keys, feed, s)
  {
    s.history + ToTake(c, keys, feed, s)
  }

  lemma TakePasses<V>(c: Setting, keys: set<string>, feed: seq<Batch<V>>, s: View<V>)
    requires Ok(c, keys, feed, s) && s.prefetched.None? && s.micros != []
    ensures Ok(c, keys, feed, TakeStep(c, s))
    ensures Passing(c, keys, feed, TakeStep(c, s)) == Passing(c, keys, feed, s)
  {
    hide *;
    TakeOk(c, keys, feed, s);
    OkShapes(c, keys, feed, s);
    TakeShapes(c, keys, feed, s);
    PassingIs(c, keys, feed, s);
    PassingIs(c, keys, feed, TakeStep(c, s));
    TakeLogs(c, s);
    Moved(s.history, s.micros[0], ToTake(c, keys, feed, TakeStep(c, s)));
  }

  lemma PassingIs<V>(c: Setting, keys: set<string>, feed: seq<Batch<V>>, s: View<V>)
    requires Ok(c, keys, feed, s)
    ensures Shapes(c, keys, feed, s) && Passing(c, keys, feed, s) == s.history + ToTake(c, keys, feed, s)
  {
    OkShapes(c, keys, feed, s);
    hide Ok, ToTake;
  }

  lemma TakeLogs<V>(c: Setting, s: View<V>)
    requires s.micros != []
    ensures TakeStep(c, s).history == s.history + [s.micros[0]]
  {
  }

  lemma Moved<T>(a: seq<T>, x: T, b: seq<T>)
    ensures a + ([x] + b) == a + [x] + b
  {
  }

  lemma SameTaken<V>(c: Setting, keys: set<string>, feed: seq<Batch<V>>, s: View<V>, t: View<V>)
    requires Ok(c, keys, feed, s) && Ok(c, keys, feed, t)
    requires t.micros == s.micros && t.globals == s.globals && t.fetched == s.fetched && t.history == s.history
    ensures Passing(c, keys, feed, t) == Passing(c, keys, feed, s)
  {
    OkShapes(c, keys, feed, s);
    OkShapes(c, keys, feed, t);
    hide Ok, Shapes, MicrosOf, MicrosOfFeed;
  }

  lemma CutPasses<V>(c: Setting, keys: set<string>, feed: seq<Batch<V>>, s: View<V>)
    requires Ok(c, keys, feed, s) && s.prefetched.None? && s.micros == [] && s.globals != []
    ensures GoodSetting(c) && Good(c, keys, s.globals[0]) && Ok(c, keys, feed, CutStep(c, keys, s))
    ensures Passing(c, keys, feed, CutStep(c, keys, s)) == Passing(c, keys, feed, s)
  {
    CutOk(c, keys, feed, s);
    OkShapes(c, keys, feed, s);
    OkShapes(c, keys, feed, CutStep(c, keys, s));
    hide Ok;
    CutStream(c, keys, feed, s);
    hide ToTake, Shapes;
  }

  lemma FetchPasses<V>(c: Setting, keys: set<string>, feed: seq<Batch<V>>, s: View<V>)
    requires Ok(c, keys, feed, s) && s.globals == [] && s.fetched < |feed|
    ensures GoodSetting(c) && Fetchable(c, keys, feed[s.fetched]) && Ok(c, keys, feed, FetchStep(c, feed, s))
    ensures Passing(c, keys, feed, FetchStep(c, feed, s)) == Passing(c, keys, feed, s)
  {
    FetchOk(c, keys, feed, s);
    OkShapes(c, keys, feed, s);
    OkShapes(c, keys, feed, FetchStep(c, feed, s));
    hide Ok;
    FetchStream(c, keys, feed, s);
    hide ToTake, Shapes;
  }

  lemma ReadyPasses<V>(c: Setting, keys: set<string>, feed: seq<Batch<V>>, s: View<V>)
    requires Ok(c, keys, feed, s) && !Exhausted(feed, s)
    ensures var ready := Ready(c, keys, feed, s);
      Ok(c, keys, feed, ready) && Loaded(ready) && Passing(c, keys, feed, ready) == Passing(c, keys, feed, s)
  {
    ReadyOk(c, keys, feed, s);
    hide Ok, Passing;
    if !Loaded(s) {
      if s.globals == [] {
        Within(c, keys, feed, s);
        FetchOk(c, keys, feed, s);
        FetchPasses(c, keys, feed, s);
        CutPasses(c, keys, feed, FetchStep(c, feed, s));
      } else {
        CutPasses(c, keys, feed, s);
      }
    }
  }

  lemma NextPasses<V>(c: Setting, keys: set<string>, feed: seq<Batch<V>>, s: View<V>)
    requires Ok(c, keys, feed, s) && !Exhausted(feed, s)
    ensures Ok(c, keys, feed, NextStep(c, keys, feed, s))
    ensures Passing(c, keys, feed, NextStep(c, keys, feed, s)) == Passing(c, keys, feed, s)
  {
    NextOk(c, keys, feed, s);
    ReadyPasses(c, keys, feed, s);
    hide Ok, Passing, Ready;
    var ready := Ready(c, keys, feed, s);
    if ready.prefetched.Some? {
      SameTaken(c, keys, feed, ready, GiveStep(c, ready));
    } else {
      TakePasses(c, keys, feed, ready);
    }
  }

  lemma PrefetchPasses<V>(c: Setting, keys: set<string>, feed: seq<Batch<V>>, s: View<V>)
    requires Ok(c, keys, feed, s) && !Exhausted(feed, s)
    ensures Ok(c, keys, feed, PrefetchStep(c, keys, feed, s))
    ensures Passing(c, keys, feed, PrefetchStep(c, keys, feed, s)) == Passing(c, keys, feed, s)
  {
    hide Ok, Passing, NextStep, Exhausted;
    PrefetchKeeps(c, keys, feed, s);
    NextPasses(c, keys, feed, s);
    if s.prefetched.None? {
      SameTaken(c, keys, feed, NextStep(c, keys, feed, s), PrefetchStep(c, keys, feed, s));
    }
  }

  lemma StepPasses<V>(c: Setting, keys: set<string>, feed: seq<Batch<V>>, s: View<V>, call: Call)
    requires Ok(c, keys, feed, s)
    ensures Ok(c, keys, feed, StepOf(c, keys, feed, s, call))
    ensures Passing(c, keys, feed, StepOf(c, keys, feed, s, call)) == Passing(c, keys, feed, s)
  {
    hide Ok, Passing, NextStep, PrefetchStep, Exhausted;
    StepOk(c, keys, feed, s, call);
    if call == CallGetAll {
      SameTaken(c, keys, feed, s, Cleared(s));
    } else if !Exhausted(feed, s) {
      if call == CallNext {
        NextPasses(c, keys, feed, s);
      } else {
        PrefetchPasses(c, keys, feed, s);
      }
    }
  }

  lemma {:induction false} RunPasses<V>(c: Setting, keys: set<string>, feed: seq<Batch<V>>, s: View<V>,
      calls: seq<Call>)
    requires Ok(c, keys, feed, s)
    ensures Ok(c, keys, feed, StateAfter(c, keys, feed, s, calls))
    ensures Passing(c, keys, feed, StateAfter(c, keys, feed, s, calls)) == Passing(c, keys, feed, s)
    decreases |calls|
  {
    hide Ok, Passing, StepOf;
    if calls != [] {
      StepPasses(c, keys, feed, s, calls[0]);
      RunPasses(c, keys, feed, StepOf(c, keys, feed, s, calls[0]), calls[1..]);
    }
  }

  lemma InitialPasses<V>(c: Setting, keys: set<string>, feed: seq<Batch<V>>)
    requires Usable(c, keys, feed)
    ensures Ok(c, keys, feed, Initial()) && Passing(c, keys, feed, Initial()) == MicrosOfFeed(c, keys, feed)
  {
    InitialOk(c, keys, feed);
    OkMeans(c, keys, feed, Initial());
    hide Ok, ToTake, MicrosOfFeed, Shapes, Conserved, Counted;
  }

  /**
   * After any calls on a new iterator the log holds, in order, the first samples of what is handed out for the fetched
   * batches; when `__next__` raises, all of them.
   */
  lemma RunLogsInOrder<V>(c: Setting, keys: set<string>, feed: seq<Batch<V>>, calls: seq<Call>)
    requires Usable(c, keys, feed)
    ensures Ok(c, keys, feed, Initial()) && AllAligned(feed, c.tk)
    ensures var s := StateAfter(c, keys, feed, Initial(), calls);
      && AllAligned(s.archived + s.batches, c.tk)
      && Samples(s.archived + s.batches, c.tk) <= AllHanded(c, feed)
      && (Exhausted(feed, s) ==> Samples(s.archived + s.batches, c.tk) == AllHanded(c, feed))
  {
    InitialPasses(c, keys, feed);
    RunPasses(c, keys, feed, Initial(), calls);
    StreamOrder(c, keys, feed);
    var s := StateAfter(c, keys, feed, Initial(), calls);
    hide *;
    HistoryIs(c, keys, feed, s);
    PassingMeans(c, keys, feed, s);
    var todo := AfterLog(s.history, MicrosOfFeed(c, keys, feed), c.tk);
    SamplesConcat(s.history, todo, c.tk);
    if Exhausted(feed, s) {
      NothingToTake(c, keys, feed, s);
      assert s.history + [] == s.history;
    }
  }

  lemma PassingMeans<V>(c: Setting, keys: set<string>, feed: seq<Batch<V>>, s: View<V>)
    requires Ok(c, keys, feed, s)
    ensures s.history <= Passing(c, keys, feed, s)
  {
    hide Ok, ToTake;
  }

  lemma NothingToTake<V>(c: Setting, keys: set<string>, feed: seq<Batch<V>>, s: View<V>)
    requires Ok(c, keys, feed, s) && Exhausted(feed, s)
    ensures Passing(c, keys, feed, s) == s.history
  {
    NextOk(c, keys, feed, s);
    OkMeans(c, keys, feed, s);
    hide Ok, ToTake, Shapes, Counted, Conserved;
  }

  lemma AfterLog<V>(log: seq<Batch<V>>, all: seq<Batch<V>>, tk: string) returns (rest: seq<Batch<V>>)
    requires log <= all && AllAligned(all, tk)
    ensures AllAligned(log, tk) && AllAligned(rest, tk) && all == log + rest
  {
    rest := all[|log|..];
    hide Aligned;
    forall j | 0 <= j < |rest|
      ensures Aligned(rest[j], tk)
    {
      assert rest[j] == all[|log| + j];
    }
    forall j | 0 <= j < |log|
      ensures Aligned(log[j], tk)
    {
      assert log[j] == all[j];
    }
  }
}
