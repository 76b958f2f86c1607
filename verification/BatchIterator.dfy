/** `BatchResizingIterator`: micro-batches out of fetched batches, with prefetching and a replay log. */
module BatchIterator {
  import opened Wrappers
  import opened BatchTables
  import opened Arithmetic

  /** What an iterator is given: sizes, the size column, and the seeded permutation for each batch size. */
  datatype Setting = Setting(micro: nat, global: nat, tk: string, shuffle: bool, perm: nat -> seq<nat>)

  ghost predicate GoodSetting(c: Setting) {
    && c.global > 0 && c.micro > 0
    && forall n {:trigger c.perm(n)} :: IsPermutation(c.perm(n), n)
  }

  /** A number of samples that `n // micro` pieces divide evenly, as the assertion of the splitting demands. */
  predicate Cuttable(c: Setting, n: nat) {
    0 < c.micro <= n && Divides(n / c.micro, n)
  }

  /** How large the pieces are: not always `micro`. */
  function PieceSize(c: Setting, n: nat): nat
    requires Cuttable(c, n)
  {
    n / (n / c.micro)
  }

  lemma PieceSizeDivides(c: Setting, n: nat)
    requires Cuttable(c, n)
    ensures Divides(PieceSize(c, n), n) && c.micro <= PieceSize(c, n) < 2 * c.micro
  {
    var k, size := n / c.micro, PieceSize(c, n);
    DividesProduct(k, n);
    Remainder(n, c.micro);
    ProductCommutes(size, k);
    hide PieceSize, Cuttable;
    if size < c.micro {
      ProductNext(size + 1, k);
      ProductCommutes(c.micro, k);
      ProductMonotone(size + 1, c.micro, k);
    }
    if size >= 2 * c.micro {
      ProductCommutes(2 * c.micro, k);
      TwiceProduct(k, c.micro);
      ProductNext(1, c.micro);
      ProductMonotone(1, k, c.micro);
      ProductMonotone(2 * c.micro, size, k);
    }
    QuotientUnique(n, size, k, 0);
  }

  lemma TwiceProduct(k: nat, c: nat)
    ensures Product(k, 2 * c) == 2 * Product(k, c)
  {
  }

  /** A global batch that can be cut into micro-batches. */
  ghost predicate Good<V>(c: Setting, keys: set<string>, b: Batch<V>) {
    b.Keys == keys && Aligned(b, c.tk) && Cuttable(c, |b[c.tk]|)
  }

  ghost predicate AllGood<V>(c: Setting, keys: set<string>, bs: seq<Batch<V>>) {
    forall j :: 0 <= j < |bs| ==> Good(c, keys, bs[j])
  }

  /** A fetched batch all of whose global batches can be cut. */
  ghost predicate Fetchable<V>(c: Setting, keys: set<string>, b: Batch<V>) {
    && c.global > 0 && b.Keys == keys && Aligned(b, c.tk) && |b[c.tk]| > 0
    && Cuttable(c, if |b[c.tk]| % c.global != 0 then |b[c.tk]| else c.global)
  }

  ghost predicate AllFetchable<V>(c: Setting, keys: set<string>, bs: seq<Batch<V>>) {
    forall j :: 0 <= j < |bs| ==> Fetchable(c, keys, bs[j])
  }

  /** A micro-batch: aligned columns, and from one up to less than two times the asked number of samples. */
  ghost predicate IsMicro<V>(c: Setting, keys: set<string>, b: Batch<V>) {
    b.Keys == keys && Aligned(b, c.tk) && c.micro <= |b[c.tk]| < 2 * c.micro
  }

  ghost predicate AllMicros<V>(c: Setting, keys: set<string>, bs: seq<Batch<V>>) {
    forall j :: 0 <= j < |bs| ==> IsMicro(c, keys, bs[j])
  }

  function Shuffled<V>(c: Setting, b: Batch<V>): Batch<V>
    requires GoodSetting(c) && Aligned(b, c.tk)
  {
    if c.shuffle then
      PermuteRows(b, c.tk, c.perm(|b[c.tk]|));
      Permute(b, c.perm(|b[c.tk]|))
    else b
  }

  lemma ShuffledRows<V>(c: Setting, keys: set<string>, b: Batch<V>)
    requires GoodSetting(c) && Aligned(b, c.tk) && b.Keys == keys
    ensures Shuffled(c, b).Keys == keys && Aligned(Shuffled(c, b), c.tk) && |Shuffled(c, b)[c.tk]| == |b[c.tk]|
    ensures multiset(Rows(Shuffled(c, b), c.tk)) == multiset(Rows(b, c.tk))
  {
    if c.shuffle {
      PermuteRows(b, c.tk, c.perm(|b[c.tk]|));
    }
  }

  /** `get_iterator_k_split` into pieces of `size` samples. */
  function Split<V>(c: Setting, b: Batch<V>, size: nat): seq<Batch<V>>
    requires GoodSetting(c) && Aligned(b, c.tk) && Divides(size, |b[c.tk]|)
  {
    ShuffledRows(c, b.Keys, b);
    DividesProduct(size, |b[c.tk]|);
    Chunks(Shuffled(c, b), size, |b[c.tk]| / size)
  }

  lemma SplitRows<V>(c: Setting, keys: set<string>, b: Batch<V>, size: nat)
    requires GoodSetting(c) && Aligned(b, c.tk) && b.Keys == keys && Divides(size, |b[c.tk]|)
    ensures forall j :: 0 <= j < |Split(c, b, size)| ==> IsChunk(Split(c, b, size)[j], keys, c.tk, size)
    ensures AllAligned(Split(c, b, size), c.tk)
    ensures AllRows(Split(c, b, size), c.tk) == multiset(Rows(b, c.tk))
    ensures |b[c.tk]| > 0 ==> Split(c, b, size) != []
  {
    ShuffledRows(c, keys, b);
    DividesProduct(size, |b[c.tk]|);
    ChunksShape(Shuffled(c, b), c.tk, size, |b[c.tk]| / size);
    ChunksRows(Shuffled(c, b), c.tk, size, |b[c.tk]| / size);
  }

  /** `_get_global_batches` on one fetched batch: as it is, or cut into global batches. */
  function GlobalsOf<V>(c: Setting, b: Batch<V>): seq<Batch<V>>
    requires GoodSetting(c) && Aligned(b, c.tk)
  {
    if |b[c.tk]| % c.global != 0 then [b] else Split(c, b, c.global)
  }

  lemma GlobalsOfRows<V>(c: Setting, keys: set<string>, b: Batch<V>)
    requires GoodSetting(c) && Fetchable(c, keys, b)
    ensures AllGood(c, keys, GlobalsOf(c, b)) && AllAligned(GlobalsOf(c, b), c.tk) && GlobalsOf(c, b) != []
    ensures AllRows(GlobalsOf(c, b), c.tk) == multiset(Rows(b, c.tk))
  {
    if |b[c.tk]| % c.global != 0 {
      AllRowsFirst(b, [], c.tk);
      assert [b] + [] == [b];
    } else {
      SplitRows(c, keys, b, c.global);
    }
  }

  /** A global batch is cut into pieces of the size that comes out. */
  ghost function Pieces<V>(c: Setting, keys: set<string>, b: Batch<V>): seq<Batch<V>>
    requires GoodSetting(c) && Good(c, keys, b)
  {
    PieceSizeDivides(c, |b[c.tk]|);
    Split(c, b, PieceSize(c, |b[c.tk]|))
  }

  lemma PiecesRows<V>(c: Setting, keys: set<string>, b: Batch<V>)
    requires GoodSetting(c) && Good(c, keys, b)
    ensures AllMicros(c, keys, Pieces(c, keys, b)) && AllAligned(Pieces(c, keys, b), c.tk) && Pieces(c, keys, b) != []
    ensures AllRows(Pieces(c, keys, b), c.tk) == multiset(Rows(b, c.tk))
  {
    PieceSizeDivides(c, |b[c.tk]|);
    SplitRows(c, keys, b, PieceSize(c, |b[c.tk]|));
    hide Split, Rows, PieceSize, Aligned;
    var pieces := Pieces(c, keys, b);
    forall j | 0 <= j < |pieces|
      ensures IsMicro(c, keys, pieces[j])
    {
      assert IsChunk(pieces[j], keys, c.tk, PieceSize(c, |b[c.tk]|));
    }
  }

  /** The micro-batches of a list of global batches. */
  ghost function MicrosOf<V>(c: Setting, keys: set<string>, bs: seq<Batch<V>>): seq<Batch<V>>
    requires GoodSetting(c) && AllGood(c, keys, bs)
  {
    if bs == [] then [] else Pieces(c, keys, bs[0]) + MicrosOf(c, keys, bs[1..])
  }

  /** The micro-batches of the batches still to be fetched. */
  ghost function MicrosOfFeed<V>(c: Setting, keys: set<string>, feed: seq<Batch<V>>): seq<Batch<V>>
    requires GoodSetting(c) && AllFetchable(c, keys, feed)
  {
    if feed == [] then []
    else
      GlobalsOfRows(c, keys, feed[0]);
      MicrosOf(c, keys, GlobalsOf(c, feed[0])) + MicrosOfFeed(c, keys, feed[1..])
  }

  /**
   * The fields of the iterator; `archived` are the micro-batches already handed out by `get_all_batches`, `history` all
   * ever taken.
   */
  datatype View<V> = View(fetched: nat, consumed: nat, micros: seq<Batch<V>>, globals: seq<Batch<V>>,
      prefetched: Option<Batch<V>>, done: bool, batches: seq<Batch<V>>, archived: seq<Batch<V>>, history: seq<Batch<V>>)

  ghost predicate Shapes<V>(c: Setting, keys: set<string>, feed: seq<Batch<V>>, s: View<V>) {
    && GoodSetting(c) && AllFetchable(c, keys, feed) && s.fetched <= |feed|
    && AllMicros(c, keys, s.micros) && AllGood(c, keys, s.globals) && AllMicros(c, keys, s.history)
    && (s.prefetched.Some? ==> IsMicro(c, keys, s.prefetched.value))
  }

  /** `batch[tensor_key].shape[0]`. */
  function Size<V>(b: Batch<V>, tk: string): nat {
    if tk in b then |b[tk]| else 0
  }

  function Sizes<V>(bs: seq<Batch<V>>, tk: string): nat {
    if bs == [] then 0 else Sizes(bs[..|bs| - 1], tk) + Size(bs[|bs| - 1], tk)
  }

  /** How many samples have been taken in all. */
  ghost function Taken<V>(c: Setting, s: View<V>): nat {
    Sizes(s.history, c.tk)
  }

  /**
   * The counter is the number of samples taken modulo the global batch size; `done` holds at its positive multiples.
   */
  ghost predicate Counted<V>(c: Setting, s: View<V>)
    requires c.global > 0
  {
    && s.consumed == Taken(c, s) % c.global
    && (s.done <==> s.history != [] && Taken(c, s) % c.global == 0)
  }

  /** Taking these micro-batches never leads past a global batch, as the assertion on the counter demands. */
  predicate NeverOver<V>(c: Setting, consumed: nat, stream: seq<Batch<V>>)
    requires c.global > 0
    decreases |stream|
  {
    stream == [] ||
    (consumed + Size(stream[0], c.tk) <= c.global
      && NeverOver(c, (consumed + Size(stream[0], c.tk)) % c.global, stream[1..]))
  }

  /** Every sample fetched was logged once or is still waiting in one of the two iterators. */
  ghost predicate Conserved<V>(c: Setting, feed: seq<Batch<V>>, s: View<V>)
    requires s.fetched <= |feed|
  {
    && s.history == s.archived + s.batches
    && AllAligned(feed[..s.fetched], c.tk) && AllAligned(s.history, c.tk) && AllAligned(s.micros, c.tk)
      && AllAligned(s.globals, c.tk)
    && AllRows(feed[..s.fetched], c.tk) == AllRows(s.history, c.tk) + AllRows(s.micros, c.tk) + AllRows(s.globals, c.tk)
  }

  /** The micro-batches that will still be counted. */
  ghost function ToTake<V>(c: Setting, keys: set<string>, feed: seq<Batch<V>>, s: View<V>): seq<Batch<V>>
    requires Shapes(c, keys, feed, s)
  {
    s.micros + MicrosOf(c, keys, s.globals) + MicrosOfFeed(c, keys, feed[s.fetched..])
  }

  ghost predicate Ok<V>(c: Setting, keys: set<string>, feed: seq<Batch<V>>, s: View<V>) {
    && Shapes(c, keys, feed, s) && Counted(c, s) && Conserved(c, feed, s)
    && NeverOver(c, s.consumed, ToTake(c, keys, feed, s))
  }

  /** The micro-batches that successive calls of `__next__` will return. */
  ghost function StreamOf<V>(c: Setting, keys: set<string>, feed: seq<Batch<V>>, s: View<V>): seq<Batch<V>>
    requires Shapes(c, keys, feed, s)
  {
    (if s.prefetched.Some? then [s.prefetched.value] else []) + ToTake(c, keys, feed, s)
  }

  // ---------------------------------------------------------------- the steps

  ghost function TakeStep<V>(c: Setting, s: View<V>): View<V>
    requires s.micros != []
  {
    var size := Size(s.micros[0], c.tk);
    var full := s.consumed + size == c.global;
    s.(micros := s.micros[1..], consumed := if full then 0 else s.consumed + size, done := full,
       batches := s.batches + [s.micros[0]], history := s.history + [s.micros[0]])
  }

  lemma SizesSnoc<V>(bs: seq<Batch<V>>, b: Batch<V>, tk: string)
    ensures Sizes(bs + [b], tk) == Sizes(bs, tk) + Size(b, tk)
  {
    assert (bs + [b])[..|bs|] == bs;
  }

  lemma TakenGrows<V>(c: Setting, s: View<V>)
    requires s.micros != []
    ensures Taken(c, TakeStep(c, s)) == Taken(c, s) + Size(s.micros[0], c.tk)
  {
    SizesSnoc(s.history, s.micros[0], c.tk);
    hide Sizes, Size;
  }

  lemma TakeCounts<V>(c: Setting, s: View<V>)
    requires c.global > 0 && Counted(c, s) && s.micros != [] && Size(s.micros[0], c.tk) > 0
    requires s.consumed + Size(s.micros[0], c.tk) <= c.global
    ensures Counted(c, TakeStep(c, s))
    ensures TakeStep(c, s).consumed == (s.consumed + Size(s.micros[0], c.tk)) % c.global
  {
    var size := Size(s.micros[0], c.tk);
    TakenGrows(c, s);
    hide Taken, Size;
    CountModulo(Taken(c, s), size, c.global);
    ModuloBelow(s.consumed + size, c.global);
  }

  lemma ModuloBelow(n: nat, g: nat)
    requires g > 0 && n <= g
    ensures n % g == if n == g then 0 else n
  {
  }

  lemma TakeConserves<V>(c: Setting, feed: seq<Batch<V>>, s: View<V>)
    requires s.fetched <= |feed| && Conserved(c, feed, s) && s.micros != []
    ensures Conserved(c, feed, TakeStep(c, s))
  {
    hide AllAligned, Aligned, AllRows, Rows;
    AllRowsHead(s.micros, c.tk);
    AllRowsSnoc(s.history, s.micros[0], c.tk);
  }

  lemma TakeShapes<V>(c: Setting, keys: set<string>, feed: seq<Batch<V>>, s: View<V>)
    requires Shapes(c, keys, feed, s) && s.micros != []
    ensures Shapes(c, keys, feed, TakeStep(c, s))
    ensures IsMicro(c, keys, s.micros[0]) && Size(s.micros[0], c.tk) == |s.micros[0][c.tk]| > 0
    ensures ToTake(c, keys, feed, s) == [s.micros[0]] + ToTake(c, keys, feed, TakeStep(c, s))
  {
    hide MicrosOf, MicrosOfFeed;
    assert IsMicro(c, keys, s.micros[0]);
    assert s.micros == [s.micros[0]] + s.micros[1..];
  }

  lemma NeverOverNext<V>(c: Setting, consumed: nat, first: Batch<V>, rest: seq<Batch<V>>)
    requires c.global > 0 && NeverOver(c, consumed, [first] + rest)
    ensures consumed + Size(first, c.tk) <= c.global
    ensures NeverOver(c, (consumed + Size(first, c.tk)) % c.global, rest)
  {
    assert ([first] + rest)[1..] == rest;
  }

  lemma TakeOk<V>(c: Setting, keys: set<string>, feed: seq<Batch<V>>, s: View<V>)
    requires Ok(c, keys, feed, s) && s.prefetched.None? && s.micros != []
    ensures s.consumed + Size(s.micros[0], c.tk) <= c.global
    ensures Ok(c, keys, feed, TakeStep(c, s))
    ensures StreamOf(c, keys, feed, s) == [s.micros[0]] + StreamOf(c, keys, feed, TakeStep(c, s))
  {
    hide Counted, Conserved, IsMicro, ToTake, NeverOver, Shapes, Size;
    ShapesMean(c, keys, feed, s);
    TakeShapes(c, keys, feed, s);
    NeverOverNext(c, s.consumed, s.micros[0], ToTake(c, keys, feed, TakeStep(c, s)));
    TakeCounts(c, s);
    TakeConserves(c, feed, s);
  }

  /** A global batch is cut into micro-batches. */
  ghost function CutStep<V>(c: Setting, keys: set<string>, s: View<V>): View<V>
    requires GoodSetting(c) && s.globals != [] && Good(c, keys, s.globals[0])
  {
    s.(globals := s.globals[1..], micros := Pieces(c, keys, s.globals[0]))
  }

  lemma NoRows<V>(tk: string)
    ensures AllAligned<V>([], tk) && AllRows<V>([], tk) == multiset{}
  {
  }

  lemma CutConserves<V>(c: Setting, keys: set<string>, feed: seq<Batch<V>>, s: View<V>)
    requires GoodSetting(c) && s.globals != [] && Good(c, keys, s.globals[0]) && s.micros == []
    requires s.fetched <= |feed| && Conserved(c, feed, s)
    ensures Conserved(c, feed, CutStep(c, keys, s))
  {
    PiecesRows(c, keys, s.globals[0]);
    hide Pieces, Aligned, AllAligned, AllRows, Rows, IsMicro;
    AllRowsHead(s.globals, c.tk);
    NoRows<V>(c.tk);
  }

  lemma CutShapes<V>(c: Setting, keys: set<string>, feed: seq<Batch<V>>, s: View<V>)
    requires Shapes(c, keys, feed, s) && s.micros == [] && s.globals != []
    ensures Shapes(c, keys, feed, CutStep(c, keys, s)) && CutStep(c, keys, s).micros != []
  {
    PiecesRows(c, keys, s.globals[0]);
    hide Pieces, Aligned, Good, IsMicro;
  }

  lemma CutStream<V>(c: Setting, keys: set<string>, feed: seq<Batch<V>>, s: View<V>)
    requires Shapes(c, keys, feed, s) && s.micros == [] && s.globals != []
    requires Shapes(c, keys, feed, CutStep(c, keys, s))
    ensures ToTake(c, keys, feed, CutStep(c, keys, s)) == ToTake(c, keys, feed, s)
  {
    hide Pieces, MicrosOfFeed, Aligned, IsMicro;
    assert MicrosOf(c, keys, s.globals) == Pieces(c, keys, s.globals[0]) + MicrosOf(c, keys, s.globals[1..]);
  }

  lemma CutOk<V>(c: Setting, keys: set<string>, feed: seq<Batch<V>>, s: View<V>)
    requires Ok(c, keys, feed, s) && s.prefetched.None? && s.micros == [] && s.globals != []
    ensures GoodSetting(c) && Good(c, keys, s.globals[0])
    ensures Ok(c, keys, feed, CutStep(c, keys, s))
    ensures CutStep(c, keys, s).micros != []
    ensures StreamOf(c, keys, feed, CutStep(c, keys, s)) == StreamOf(c, keys, feed, s)
  {
    ShapesMean(c, keys, feed, s);
    hide Conserved, ToTake, Shapes, NeverOver, Pieces, Good;
    CutConserves(c, keys, feed, s);
    CutShapes(c, keys, feed, s);
    CutStream(c, keys, feed, s);
  }

  /** A batch is fetched and made into global batches. */
  ghost function FetchStep<V>(c: Setting, feed: seq<Batch<V>>, s: View<V>): View<V>
    requires GoodSetting(c) && s.fetched < |feed| && Aligned(feed[s.fetched], c.tk)
  {
    s.(fetched := s.fetched + 1, globals := GlobalsOf(c, feed[s.fetched]))
  }

  lemma FetchConserves<V>(c: Setting, keys: set<string>, feed: seq<Batch<V>>, s: View<V>)
    requires GoodSetting(c) && s.fetched < |feed| && Fetchable(c, keys, feed[s.fetched]) && s.globals == []
    requires Conserved(c, feed, s)
    ensures Conserved(c, feed, FetchStep(c, feed, s))
  {
    GlobalsOfRows(c, keys, feed[s.fetched]);
    MoreFetched(c, feed, s, GlobalsOf(c, feed[s.fetched]));
  }

  lemma MoreFetched<V>(c: Setting, feed: seq<Batch<V>>, s: View<V>, globals: seq<Batch<V>>)
    requires s.fetched < |feed| && Aligned(feed[s.fetched], c.tk) && s.globals == [] && AllAligned(globals, c.tk)
    requires AllRows(globals, c.tk) == multiset(Rows(feed[s.fetched], c.tk))
    requires Conserved(c, feed, s)
    ensures Conserved(c, feed, s.(fetched := s.fetched + 1, globals := globals))
  {
    hide Aligned, AllAligned, AllRows, Rows;
    NoRows<V>(c.tk);
    PrefixRows(feed, s.fetched, c.tk);
  }

  lemma PrefixRows<V>(feed: seq<Batch<V>>, k: nat, tk: string)
    requires k < |feed| && AllAligned(feed[..k], tk) && Aligned(feed[k], tk)
    ensures AllAligned(feed[..k + 1], tk)
      && AllRows(feed[..k + 1], tk) == AllRows(feed[..k], tk) + multiset(Rows(feed[k], tk))
  {
    assert feed[..k + 1] == feed[..k] + [feed[k]];
    AllRowsSnoc(feed[..k], feed[k], tk);
  }

  lemma FetchShapes<V>(c: Setting, keys: set<string>, feed: seq<Batch<V>>, s: View<V>)
    requires Shapes(c, keys, feed, s) && s.globals == [] && s.fetched < |feed|
    ensures Shapes(c, keys, feed, FetchStep(c, feed, s)) && FetchStep(c, feed, s).globals != []
  {
    GlobalsOfRows(c, keys, feed[s.fetched]);
    hide GlobalsOf, IsMicro;
  }

  lemma FetchStream<V>(c: Setting, keys: set<string>, feed: seq<Batch<V>>, s: View<V>)
    requires Shapes(c, keys, feed, s) && s.globals == [] && s.fetched < |feed|
    requires Shapes(c, keys, feed, FetchStep(c, feed, s))
    ensures ToTake(c, keys, feed, FetchStep(c, feed, s)) == ToTake(c, keys, feed, s)
  {
    ShapesMean(c, keys, feed, s);
    hide Shapes, GlobalsOf, IsMicro, Good, Fetchable, MicrosOf, MicrosOfFeed, AllGood, AllFetchable, GoodSetting;
    MicrosOfRest(c, keys, feed, s.fetched);
    NoMicros<V>(c, keys);
  }

  lemma ShapesMean<V>(c: Setting, keys: set<string>, feed: seq<Batch<V>>, s: View<V>)
    requires Shapes(c, keys, feed, s)
    ensures GoodSetting(c) && AllFetchable(c, keys, feed) && AllGood(c, keys, s.globals) && s.fetched <= |feed|
    ensures c.global > 0 && c.micro > 0
    ensures s.globals != [] ==> Good(c, keys, s.globals[0])
    ensures s.fetched < |feed| ==> Fetchable(c, keys, feed[s.fetched]) && Aligned(feed[s.fetched], c.tk)
  {
  }

  lemma NoMicros<V>(c: Setting, keys: set<string>)
    requires GoodSetting(c)
    ensures AllGood<V>(c, keys, []) && MicrosOf<V>(c, keys, []) == []
  {
  }

  lemma MicrosOfRest<V>(c: Setting, keys: set<string>, feed: seq<Batch<V>>, n: nat)
    requires GoodSetting(c) && AllFetchable(c, keys, feed) && n < |feed|
    ensures Fetchable(c, keys, feed[n]) && AllGood(c, keys, GlobalsOf(c, feed[n]))
    ensures MicrosOfFeed(c, keys, feed[n..])
      == MicrosOf(c, keys, GlobalsOf(c, feed[n])) + MicrosOfFeed(c, keys, feed[n + 1..])
  {
    GlobalsOfRows(c, keys, feed[n]);
    var rest := feed[n..];
    assert rest[0] == feed[n] && rest[1..] == feed[n + 1..];
    hide GlobalsOf, MicrosOf;
  }

  lemma FetchOk<V>(c: Setting, keys: set<string>, feed: seq<Batch<V>>, s: View<V>)
    requires Ok(c, keys, feed, s) && s.globals == [] && s.fetched < |feed|
    ensures GoodSetting(c) && Fetchable(c, keys, feed[s.fetched])
    ensures Ok(c, keys, feed, FetchStep(c, feed, s)) && FetchStep(c, feed, s).globals != []
    ensures StreamOf(c, keys, feed, FetchStep(c, feed, s)) == StreamOf(c, keys, feed, s)
  {
    ShapesMean(c, keys, feed, s);
    hide Conserved, ToTake, Shapes, NeverOver, GlobalsOf, Fetchable;
    FetchConserves(c, keys, feed, s);
    FetchShapes(c, keys, feed, s);
    FetchStream(c, keys, feed, s);
  }

  ghost function Cleared<V>(s: View<V>): View<V> {
    s.(archived := s.archived + s.batches, batches := [])
  }

  /** What is still to be taken does not depend on the log or the prefetched micro-batch. */
  lemma ToTakeSame<V>(c: Setting, keys: set<string>, feed: seq<Batch<V>>, s: View<V>, t: View<V>)
    requires Ok(c, keys, feed, s) && Shapes(c, keys, feed, t)
    requires t.micros == s.micros && t.globals == s.globals && t.fetched == s.fetched && t.consumed == s.consumed
    ensures Shapes(c, keys, feed, s) && ToTake(c, keys, feed, t) == ToTake(c, keys, feed, s)
    ensures c.global > 0 && NeverOver(c, t.consumed, ToTake(c, keys, feed, t))
  {
    ShapesMean(c, keys, feed, s);
    hide Shapes, MicrosOf, MicrosOfFeed, Counted, Conserved, NeverOver;
  }

  lemma OkMeans<V>(c: Setting, keys: set<string>, feed: seq<Batch<V>>, s: View<V>)
    requires Ok(c, keys, feed, s)
    ensures Shapes(c, keys, feed, s) && c.global > 0 && Counted(c, s) && s.fetched <= |feed| && Conserved(c, feed, s)
    ensures StreamOf(c, keys, feed, s)
      == (if s.prefetched.Some? then [s.prefetched.value] else []) + ToTake(c, keys, feed, s)
  {
    hide ToTake, NeverOver, Counted, Conserved;
  }

  lemma ClearedKeeps<V>(c: Setting, keys: set<string>, feed: seq<Batch<V>>, s: View<V>)
    requires Shapes(c, keys, feed, s) && c.global > 0 && Counted(c, s) && s.fetched <= |feed| && Conserved(c, feed, s)
    ensures Shapes(c, keys, feed, Cleared(s)) && Counted(c, Cleared(s)) && Conserved(c, feed, Cleared(s))
  {
    hide AllRows, AllAligned, AllMicros, AllGood, AllFetchable, Sizes;
    assert s.archived + s.batches + [] == s.history;
  }

  lemma LogCleared<V>(c: Setting, keys: set<string>, feed: seq<Batch<V>>, s: View<V>)
    requires Ok(c, keys, feed, s)
    ensures Ok(c, keys, feed, Cleared(s)) && StreamOf(c, keys, feed, Cleared(s)) == StreamOf(c, keys, feed, s)
  {
    hide Shapes, Counted, Conserved, ToTake, NeverOver;
    OkMeans(c, keys, feed, s);
    ClearedKeeps(c, keys, feed, s);
    ToTakeSame(c, keys, feed, s, Cleared(s));
  }

  /** The history is the log, before and after the last collection. */
  lemma HistoryIs<V>(c: Setting, keys: set<string>, feed: seq<Batch<V>>, s: View<V>)
    requires Ok(c, keys, feed, s)
    ensures s.history == s.archived + s.batches && AllMicros(c, keys, s.history) && AllAligned(s.history, c.tk)
  {
  }

  lemma LogIsMicros<V>(c: Setting, keys: set<string>, feed: seq<Batch<V>>, s: View<V>)
    requires Ok(c, keys, feed, s)
    ensures forall j :: 0 <= j < |s.batches| ==> IsMicro(c, keys, s.batches[j])
  {
    HistoryIs(c, keys, feed, s);
    hide Ok, IsMicro, AllAligned;
    forall j | 0 <= j < |s.batches|
      ensures IsMicro(c, keys, s.batches[j])
    {
      assert s.batches[j] == s.history[|s.archived| + j];
    }
  }

  lemma LogShapes<V>(c: Setting, keys: set<string>, feed: seq<Batch<V>>, s: View<V>)
    requires Ok(c, keys, feed, s)
    ensures AllAligned(s.batches, c.tk) && forall j :: 0 <= j < |s.batches| ==> s.batches[j].Keys == keys
  {
    LogIsMicros(c, keys, feed, s);
    hide Ok;
    forall j | 0 <= j < |s.batches|
      ensures Aligned(s.batches[j], c.tk) && s.batches[j].Keys == keys
    {
      assert IsMicro(c, keys, s.batches[j]);
    }
  }

  lemma PrefetchedKeeps<V>(c: Setting, keys: set<string>, feed: seq<Batch<V>>, s: View<V>, b: Option<Batch<V>>)
    requires Shapes(c, keys, feed, s) && c.global > 0 && Counted(c, s) && s.fetched <= |feed| && Conserved(c, feed, s)
    requires b.Some? ==> IsMicro(c, keys, b.value)
    ensures var t := s.(prefetched := b); Shapes(c, keys, feed, t) && Counted(c, t) && Conserved(c, feed, t)
  {
    hide AllRows, AllAligned, AllMicros, AllGood, AllFetchable, Sizes, IsMicro;
  }

  lemma UnprefetchOk<V>(c: Setting, keys: set<string>, feed: seq<Batch<V>>, s: View<V>)
    requires Ok(c, keys, feed, s) && s.prefetched.Some?
    ensures Ok(c, keys, feed, s.(prefetched := None))
    ensures IsMicro(c, keys, s.prefetched.value)
    ensures StreamOf(c, keys, feed, s) == [s.prefetched.value] + StreamOf(c, keys, feed, s.(prefetched := None))
  {
    hide Shapes, Counted, Conserved, ToTake, NeverOver, IsMicro;
    OkMeans(c, keys, feed, s);
    PrefetchedIsMicro(c, keys, feed, s);
    PrefetchedKeeps(c, keys, feed, s, None);
    ToTakeSame(c, keys, feed, s, s.(prefetched := None));
  }

  lemma PrefetchedIsMicro<V>(c: Setting, keys: set<string>, feed: seq<Batch<V>>, s: View<V>)
    requires Shapes(c, keys, feed, s) && s.prefetched.Some?
    ensures IsMicro(c, keys, s.prefetched.value)
  {
  }

  lemma PrefetchOk<V>(c: Setting, keys: set<string>, feed: seq<Batch<V>>, s: View<V>, b: Batch<V>)
    requires Ok(c, keys, feed, s) && s.prefetched.None? && IsMicro(c, keys, b)
    ensures Ok(c, keys, feed, s.(prefetched := Some(b)))
    ensures StreamOf(c, keys, feed, s.(prefetched := Some(b))) == [b] + StreamOf(c, keys, feed, s)
  {
    hide Shapes, Counted, Conserved, ToTake, NeverOver, IsMicro;
    OkMeans(c, keys, feed, s);
    PrefetchedKeeps(c, keys, feed, s, Some(b));
    ToTakeSame(c, keys, feed, s, s.(prefetched := Some(b)));
  }

  lemma HeadIsPrefetched<V>(c: Setting, keys: set<string>, feed: seq<Batch<V>>, s: View<V>)
    requires Ok(c, keys, feed, s) && s.prefetched.Some?
    ensures StreamOf(c, keys, feed, s) != [] && StreamOf(c, keys, feed, s)[0] == s.prefetched.value
  {
    OkShapes(c, keys, feed, s);
    hide Ok, Shapes, ToTake;
  }

  lemma OkShapes<V>(c: Setting, keys: set<string>, feed: seq<Batch<V>>, s: View<V>)
    requires Ok(c, keys, feed, s)
    ensures Shapes(c, keys, feed, s)
  {
  }

  lemma FirstSize<V>(c: Setting, keys: set<string>, feed: seq<Batch<V>>, s: View<V>)
    requires Ok(c, keys, feed, s) && s.micros != []
    ensures IsMicro(c, keys, s.micros[0]) && c.tk in s.micros[0] && |s.micros[0][c.tk]| == Size(s.micros[0], c.tk)
  {
    assert IsMicro(c, keys, s.micros[0]);
  }

  lemma Within<V>(c: Setting, keys: set<string>, feed: seq<Batch<V>>, s: View<V>)
    requires Ok(c, keys, feed, s)
    ensures s.fetched <= |feed|
  {
  }

  lemma TakenPositive<V>(c: Setting, keys: set<string>, feed: seq<Batch<V>>, s: View<V>)
    requires Ok(c, keys, feed, s)
    ensures c.global > 0
    ensures s.done <==> Taken(c, s) > 0 && Taken(c, s) % c.global == 0
  {
    hide Conserved, NeverOver, ToTake;
    if s.history != [] {
      assert IsMicro(c, keys, s.history[|s.history| - 1]);
    }
  }

  lemma NothingLeft<V>(c: Setting, keys: set<string>, feed: seq<Batch<V>>, s: View<V>)
    requires Ok(c, keys, feed, s) && s.prefetched.None? && s.micros == [] && s.globals == [] && s.fetched == |feed|
    ensures StreamOf(c, keys, feed, s) == []
  {
  }

  // ---------------------------------------------------------------- whole calls and whole runs

  ghost predicate Exhausted<V>(feed: seq<Batch<V>>, s: View<V>) {
    s.prefetched.None? && s.micros == [] && s.globals == [] && s.fetched >= |feed|
  }

  ghost predicate Loaded<V>(s: View<V>) {
    s.prefetched.Some? || s.micros != []
  }

  /** What is handed out next. */
  ghost function Given<V>(s: View<V>): Batch<V>
    requires Loaded(s)
  {
    if s.prefetched.Some? then s.prefetched.value else s.micros[0]
  }

  /** `_get_next_micro_batch` where it does not stop. */
  ghost function GiveStep<V>(c: Setting, s: View<V>): View<V>
    requires Loaded(s)
  {
    if s.prefetched.Some? then s.(prefetched := None) else TakeStep(c, s)
  }

  lemma GiveOk<V>(c: Setting, keys: set<string>, feed: seq<Batch<V>>, s: View<V>)
    requires Ok(c, keys, feed, s) && Loaded(s)
    ensures Ok(c, keys, feed, GiveStep(c, s)) && IsMicro(c, keys, Given(s))
    ensures StreamOf(c, keys, feed, s) == [Given(s)] + StreamOf(c, keys, feed, GiveStep(c, s))
    ensures GiveStep(c, s).history == s.history + if s.prefetched.Some? then [] else [Given(s)]
  {
    hide Ok, StreamOf;
    if s.prefetched.Some? {
      UnprefetchOk(c, keys, feed, s);
    } else {
      TakeOk(c, keys, feed, s);
      FirstSize(c, keys, feed, s);
    }
  }

  /** Fetching and cutting until a micro-batch is at hand. */
  ghost function Ready<V>(c: Setting, keys: set<string>, feed: seq<Batch<V>>, s: View<V>): View<V>
    requires Ok(c, keys, feed, s) && !Exhausted(feed, s)
  {
    if Loaded(s) then s
    else if s.globals == [] then
      FetchOk(c, keys, feed, s);
      CutOk(c, keys, feed, FetchStep(c, feed, s));
      CutStep(c, keys, FetchStep(c, feed, s))
    else
      CutOk(c, keys, feed, s);
      CutStep(c, keys, s)
  }

  lemma ReadyOk<V>(c: Setting, keys: set<string>, feed: seq<Batch<V>>, s: View<V>)
    requires Ok(c, keys, feed, s) && !Exhausted(feed, s)
    ensures Ok(c, keys, feed, Ready(c, keys, feed, s)) && Loaded(Ready(c, keys, feed, s))
    ensures StreamOf(c, keys, feed, Ready(c, keys, feed, s)) == StreamOf(c, keys, feed, s)
    ensures Ready(c, keys, feed, s).prefetched == s.prefetched
  {
    hide Ok, StreamOf;
    if !Loaded(s) {
      if s.globals == [] {
        FetchOk(c, keys, feed, s);
        CutOk(c, keys, feed, FetchStep(c, feed, s));
      } else {
        CutOk(c, keys, feed, s);
      }
    }
  }

  ghost function NextStep<V>(c: Setting, keys: set<string>, feed: seq<Batch<V>>, s: View<V>): View<V>
    requires Ok(c, keys, feed, s) && !Exhausted(feed, s)
  {
    ReadyOk(c, keys, feed, s);
    GiveStep(c, Ready(c, keys, feed, s))
  }

  ghost function NextGiven<V>(c: Setting, keys: set<string>, feed: seq<Batch<V>>, s: View<V>): Batch<V>
    requires Ok(c, keys, feed, s) && !Exhausted(feed, s)
  {
    ReadyOk(c, keys, feed, s);
    Given(Ready(c, keys, feed, s))
  }

  lemma NextIs<V>(c: Setting, keys: set<string>, feed: seq<Batch<V>>, s: View<V>)
    requires Ok(c, keys, feed, s)
    ensures Loaded(s) ==>
      !Exhausted(feed, s) && NextStep(c, keys, feed, s) == GiveStep(c, s) && NextGiven(c, keys, feed, s) == Given(s)
    ensures !Exhausted(feed, s) ==> var ready := Ready(c, keys, feed, s);
      && Loaded(ready) && NextStep(c, keys, feed, s) == GiveStep(c, ready)
        && NextGiven(c, keys, feed, s) == Given(ready)
  {
    hide Ok;
    if !Exhausted(feed, s) {
      ReadyOk(c, keys, feed, s);
    }
  }

  lemma NextOk<V>(c: Setting, keys: set<string>, feed: seq<Batch<V>>, s: View<V>)
    requires Ok(c, keys, feed, s)
    ensures Exhausted(feed, s) <==> StreamOf(c, keys, feed, s) == []
    ensures !Exhausted(feed, s) ==>
      && Ok(c, keys, feed, NextStep(c, keys, feed, s)) && NextStep(c, keys, feed, s).prefetched.None?
      && IsMicro(c, keys, NextGiven(c, keys, feed, s))
      && StreamOf(c, keys, feed, s)
        == [NextGiven(c, keys, feed, s)] + StreamOf(c, keys, feed, NextStep(c, keys, feed, s))
  {
    if Exhausted(feed, s) {
      assert s.fetched == |feed|;
      NothingLeft(c, keys, feed, s);
    } else {
      hide Ok, StreamOf;
      ReadyOk(c, keys, feed, s);
      GiveOk(c, keys, feed, Ready(c, keys, feed, s));
    }
  }

  ghost function PrefetchStep<V>(c: Setting, keys: set<string>, feed: seq<Batch<V>>, s: View<V>): View<V>
    requires Ok(c, keys, feed, s) && !Exhausted(feed, s)
  {
    if s.prefetched.Some? then s
    else NextStep(c, keys, feed, s).(prefetched := Some(NextGiven(c, keys, feed, s)))
  }

  lemma PrefetchKeeps<V>(c: Setting, keys: set<string>, feed: seq<Batch<V>>, s: View<V>)
    requires Ok(c, keys, feed, s) && !Exhausted(feed, s)
    ensures Ok(c, keys, feed, PrefetchStep(c, keys, feed, s))
    ensures StreamOf(c, keys, feed, PrefetchStep(c, keys, feed, s)) == StreamOf(c, keys, feed, s)
  {
    hide Ok, StreamOf;
    if s.prefetched.None? {
      NextOk(c, keys, feed, s);
      PrefetchOk(c, keys, feed, NextStep(c, keys, feed, s), NextGiven(c, keys, feed, s));
    }
  }

  datatype Call = CallNext | CallPrefetch | CallGetAll

  ghost function StepOf<V>(c: Setting, keys: set<string>, feed: seq<Batch<V>>, s: View<V>, call: Call): View<V>
    requires Ok(c, keys, feed, s)
  {
    match call
    case CallNext => if Exhausted(feed, s) then s else NextStep(c, keys, feed, s)
    case CallPrefetch => if Exhausted(feed, s) then s else PrefetchStep(c, keys, feed, s)
    case CallGetAll => Cleared(s)
  }

  lemma StepOk<V>(c: Setting, keys: set<string>, feed: seq<Batch<V>>, s: View<V>, call: Call)
    requires Ok(c, keys, feed, s)
    ensures Ok(c, keys, feed, StepOf(c, keys, feed, s, call))
    ensures call == CallNext && !Exhausted(feed, s) ==>
      StreamOf(c, keys, feed, s)
        == [NextGiven(c, keys, feed, s)] + StreamOf(c, keys, feed, StepOf(c, keys, feed, s, call))
    ensures call != CallNext || Exhausted(feed, s) ==>
      StreamOf(c, keys, feed, s) == StreamOf(c, keys, feed, StepOf(c, keys, feed, s, call))
  {
    hide Ok, StreamOf;
    if call == CallGetAll {
      LogCleared(c, keys, feed, s);
    } else if !Exhausted(feed, s) {
      NextOk(c, keys, feed, s);
      PrefetchKeeps(c, keys, feed, s);
    }
  }

  /** The state after a list of calls. */
  ghost function StateAfter<V>(c: Setting, keys: set<string>, feed: seq<Batch<V>>, s: View<V>,
      calls: seq<Call>): View<V>
    requires Ok(c, keys, feed, s)
    decreases |calls|
  {
    if calls == [] then s
    else
      StepOk(c, keys, feed, s, calls[0]);
      StateAfter(c, keys, feed, StepOf(c, keys, feed, s, calls[0]), calls[1..])
  }

  /** What the `__next__` calls among them return. */
  ghost function Outputs<V>(c: Setting, keys: set<string>, feed: seq<Batch<V>>, s: View<V>,
      calls: seq<Call>): seq<Batch<V>>
    requires Ok(c, keys, feed, s)
    decreases |calls|
  {
    if calls == [] then []
    else
      StepOk(c, keys, feed, s, calls[0]);
      (if calls[0] == CallNext && !Exhausted(feed, s) then [NextGiven(c, keys, feed, s)] else [])
      + Outputs(c, keys, feed, StepOf(c, keys, feed, s, calls[0]), calls[1..])
  }

  function Nexts(calls: seq<Call>): nat {
    if calls == [] then 0 else (if calls[0] == CallNext then 1 else 0) + Nexts(calls[1..])
  }

  /**
   * Over every run, the returned micro-batches are the first ones of the stream, however prefetching and collecting are
   * interleaved.
   */
  lemma {:induction false} RunOutputs<V>(c: Setting, keys: set<string>, feed: seq<Batch<V>>, s: View<V>,
      calls: seq<Call>)
    requires Ok(c, keys, feed, s)
    ensures Ok(c, keys, feed, StateAfter(c, keys, feed, s, calls))
    ensures StreamOf(c, keys, feed, s)
      == Outputs(c, keys, feed, s, calls) + StreamOf(c, keys, feed, StateAfter(c, keys, feed, s, calls))
    ensures |Outputs(c, keys, feed, s, calls)| == Min(Nexts(calls), |StreamOf(c, keys, feed, s)|)
    decreases |calls|
  {
    hide Ok, StreamOf, NextStep, NextGiven, Exhausted, StepOf;
    if calls != [] {
      StepOk(c, keys, feed, s, calls[0]);
      NextOk(c, keys, feed, s);
      RunOutputs(c, keys, feed, StepOf(c, keys, feed, s, calls[0]), calls[1..]);
    }
  }

  /** What the assertions on the sizes demand of the batches that are fetched. */
  ghost predicate Usable<V>(c: Setting, keys: set<string>, feed: seq<Batch<V>>) {
    GoodSetting(c) && AllFetchable(c, keys, feed) && NeverOver(c, 0, MicrosOfFeed(c, keys, feed))
  }

  ghost function Initial<V>(): View<V> {
    View(0, 0, [], [], None, false, [], [], [])
  }

  lemma InitialOk<V>(c: Setting, keys: set<string>, feed: seq<Batch<V>>)
    requires Usable(c, keys, feed)
    ensures Ok(c, keys, feed, Initial()) && StreamOf(c, keys, feed, Initial()) == MicrosOfFeed(c, keys, feed)
  {
    assert feed[0..] == feed;
    NoMicros<V>(c, keys);
    hide MicrosOf, MicrosOfFeed, Fetchable;
    NoRows<V>(c.tk);
    assert feed[..0] == [];
    assert ToTake(c, keys, feed, Initial()) == MicrosOfFeed(c, keys, feed);
  }

  lemma RunPrefix<V>(c: Setting, keys: set<string>, feed: seq<Batch<V>>, s: View<V>, calls: seq<Call>)
    requires Ok(c, keys, feed, s)
    ensures Outputs(c, keys, feed, s, calls)
      == StreamOf(c, keys, feed, s)[..Min(Nexts(calls), |StreamOf(c, keys, feed, s)|)]
  {
    RunOutputs(c, keys, feed, s, calls);
    hide *;
  }

  /**
   * Whatever calls of `prefetch_one_batch` and `get_all_batches` come between, a new iterator returns the same micro-
   * batches.
   */
  lemma PrefetchingIsInvisible<V>(c: Setting, keys: set<string>, feed: seq<Batch<V>>, calls: seq<Call>)
    requires Usable(c, keys, feed)
    ensures Ok(c, keys, feed, Initial())
    ensures Outputs(c, keys, feed, Initial(), calls)
      == MicrosOfFeed(c, keys, feed)[..Min(Nexts(calls), |MicrosOfFeed(c, keys, feed)|)]
  {
    InitialOk(c, keys, feed);
    RunPrefix(c, keys, feed, Initial(), calls);
  }

  /** When `__next__` raises, every sample ever fetched is in the log exactly once. */
  lemma EverySampleLogged<V>(c: Setting, keys: set<string>, feed: seq<Batch<V>>, s: View<V>)
    requires Ok(c, keys, feed, s) && StreamOf(c, keys, feed, s) == []
    ensures AllAligned(feed, c.tk) && AllAligned(s.archived, c.tk) && AllAligned(s.batches, c.tk)
    ensures AllRows(feed, c.tk) == AllRows(s.archived, c.tk) + AllRows(s.batches, c.tk)
  {
    NextOk(c, keys, feed, s);
    hide StreamOf, Ok, Aligned, AllRows, Exhausted;
    LogAligned(c, keys, feed, s);
    HistoryIs(c, keys, feed, s);
    AllRowsConcat(s.archived, s.batches, c.tk);
    AllFetched(c, keys, feed, s);
  }

  lemma LogAligned<V>(c: Setting, keys: set<string>, feed: seq<Batch<V>>, s: View<V>)
    requires Ok(c, keys, feed, s)
    ensures AllAligned(s.archived, c.tk) && AllAligned(s.batches, c.tk)
  {
    LogShapes(c, keys, feed, s);
    HistoryIs(c, keys, feed, s);
    hide Ok, Aligned;
    forall j | 0 <= j < |s.archived|
      ensures Aligned(s.archived[j], c.tk)
    {
      assert s.archived[j] == s.history[j];
    }
  }

  /** At the end of the stream all rows of the feed have been taken. */
  lemma AllFetched<V>(c: Setting, keys: set<string>, feed: seq<Batch<V>>, s: View<V>)
    requires Ok(c, keys, feed, s) && Exhausted(feed, s)
    ensures AllAligned(feed, c.tk) && AllAligned(s.history, c.tk) && AllRows(feed, c.tk) == AllRows(s.history, c.tk)
  {
    hide Shapes, Counted, Aligned;
    Within(c, keys, feed, s);
    assert feed[..s.fetched] == feed;
    NoRows<V>(c.tk);
    hide AllRows;
  }

  // ---------------------------------------------------------------- sizes that the micro-batch size divides

  /** The micro-batch size divides the global one and the size of every fetched batch. */
  ghost predicate Even<V>(c: Setting, keys: set<string>, feed: seq<Batch<V>>) {
    && GoodSetting(c) && Divides(c.micro, c.global)
    && forall j :: 0 <= j < |feed| ==>
      feed[j].Keys == keys && Aligned(feed[j], c.tk) && |feed[j][c.tk]| > 0 && Divides(c.micro, |feed[j][c.tk]|)
  }

  ghost predicate AllOf<V>(bs: seq<Batch<V>>, tk: string, size: nat) {
    forall j :: 0 <= j < |bs| ==> Size(bs[j], tk) == size
  }

  lemma EvenCuts(c: Setting, n: nat)
    requires Divides(c.micro, n) && n > 0
    ensures Cuttable(c, n) && PieceSize(c, n) == c.micro
  {
    var k := n / c.micro;
    DividesProduct(c.micro, n);
    ProductCommutes(k, c.micro);
    if n < c.micro {
      ProductNext(1, c.micro);
      ProductMonotone(1, k, c.micro);
    }
    QuotientExact(c.micro, k);
    QuotientUnique(n, k, c.micro, 0);
  }

  /** A batch is cut into pieces of the asked size exactly if that size divides it. */
  lemma PieceSizeIff(c: Setting, n: nat)
    requires Cuttable(c, n)
    ensures PieceSize(c, n) == c.micro <==> Divides(c.micro, n)
  {
    PieceSizeDivides(c, n);
    if Divides(c.micro, n) {
      EvenCuts(c, n);
    }
  }

  /** Six samples in micro-batches of four are accepted and give one of six. */
  lemma OversizedPiece(c: Setting)
    requires c.micro == 4
    ensures Cuttable(c, 6) && PieceSize(c, 6) == 6
  {
  }

  lemma EvenFetchable<V>(c: Setting, keys: set<string>, feed: seq<Batch<V>>)
    requires Even(c, keys, feed)
    ensures AllFetchable(c, keys, feed)
  {
    EvenCuts(c, c.global);
    hide Cuttable, Divides, Aligned;
    forall j | 0 <= j < |feed|
      ensures Fetchable(c, keys, feed[j])
    {
      EvenCuts(c, |feed[j][c.tk]|);
    }
  }

  lemma EvenPieces<V>(c: Setting, keys: set<string>, b: Batch<V>)
    requires GoodSetting(c) && Good(c, keys, b) && Divides(c.micro, |b[c.tk]|)
    ensures AllOf(Pieces(c, keys, b), c.tk, c.micro)
  {
    EvenCuts(c, |b[c.tk]|);
    PieceSizeDivides(c, |b[c.tk]|);
    SplitRows(c, keys, b, c.micro);
    hide Split, PieceSize, Cuttable, Divides;
    forall j | 0 <= j < |Pieces(c, keys, b)|
      ensures Size(Pieces(c, keys, b)[j], c.tk) == c.micro
    {
      assert IsChunk(Pieces(c, keys, b)[j], keys, c.tk, c.micro);
    }
  }

  lemma {:induction false} EvenMicros<V>(c: Setting, keys: set<string>, bs: seq<Batch<V>>)
    requires GoodSetting(c) && AllGood(c, keys, bs)
    requires forall j :: 0 <= j < |bs| ==> Divides(c.micro, |bs[j][c.tk]|)
    ensures AllOf(MicrosOf(c, keys, bs), c.tk, c.micro)
  {
    hide Pieces, Divides, Size;
    if bs != [] {
      assert Good(c, keys, bs[0]);
      EvenPieces(c, keys, bs[0]);
      EvenMicros(c, keys, bs[1..]);
    }
  }

  lemma EvenGlobals<V>(c: Setting, keys: set<string>, b: Batch<V>)
    requires GoodSetting(c) && Fetchable(c, keys, b) && Divides(c.micro, |b[c.tk]|) && Divides(c.micro, c.global)
    ensures AllGood(c, keys, GlobalsOf(c, b))
    ensures forall j :: 0 <= j < |GlobalsOf(c, b)| ==>
      c.tk in GlobalsOf(c, b)[j] && Divides(c.micro, |GlobalsOf(c, b)[j][c.tk]|)
  {
    GlobalsOfRows(c, keys, b);
    if |b[c.tk]| % c.global == 0 {
      SplitRows(c, keys, b, c.global);
      hide Split, Divides, Aligned;
      forall j | 0 <= j < |GlobalsOf(c, b)|
        ensures c.tk in GlobalsOf(c, b)[j] && |GlobalsOf(c, b)[j][c.tk]| == c.global
      {
        assert IsChunk(GlobalsOf(c, b)[j], keys, c.tk, c.global);
      }
    }
  }

  lemma {:induction false} EvenStream<V>(c: Setting, keys: set<string>, feed: seq<Batch<V>>)
    requires Even(c, keys, feed) && AllFetchable(c, keys, feed)
    ensures AllOf(MicrosOfFeed(c, keys, feed), c.tk, c.micro)
  {
    if feed != [] {
      hide GlobalsOf, MicrosOf, Divides, Size, Cuttable, Aligned;
      EvenGlobals(c, keys, feed[0]);
      EvenMicros(c, keys, GlobalsOf(c, feed[0]));
      EvenStream(c, keys, feed[1..]);
    }
  }

  lemma {:induction false} EvenNeverOver<V>(c: Setting, consumed: nat, stream: seq<Batch<V>>)
    requires Divides(c.micro, c.global) && c.global > 0 && Divides(c.micro, consumed) && consumed < c.global
    requires AllOf(stream, c.tk, c.micro)
    ensures NeverOver(c, consumed, stream)
    decreases |stream|
  {
    if stream != [] {
      MultipleGap(c.micro, consumed, c.global);
      DividesSum(c.micro, consumed);
      ModuloBelow(consumed + c.micro, c.global);
      hide Divides, Size;
      NothingDivides(c.micro, c.global);
      EvenNeverOver(c, (consumed + c.micro) % c.global, stream[1..]);
    }
  }

  lemma NothingDivides(c: nat, n: nat)
    requires Divides(c, n)
    ensures Divides(c, 0)
  {
  }

  /** Then no assertion fails and every micro-batch has exactly the asked size. */
  lemma EvenFeedsAreUsable<V>(c: Setting, keys: set<string>, feed: seq<Batch<V>>)
    requires Even(c, keys, feed)
    ensures Usable(c, keys, feed) && AllOf(MicrosOfFeed(c, keys, feed), c.tk, c.micro)
  {
    EvenFetchable(c, keys, feed);
    EvenStream(c, keys, feed);
    NothingDivides(c.micro, c.global);
    EvenNeverOver(c, 0, MicrosOfFeed(c, keys, feed));
  }

  class BatchResizingIterator<V> {
    const c: Setting
    const keys: set<string>
    /** What successive calls of `get_batch_fn` return; calling it once more raises. */
    const feed: seq<Batch<V>>
    var fetched: nat
    var consumed: nat
    var microIter: seq<Batch<V>>
    var globalIter: seq<Batch<V>>
    var prefetched: Option<Batch<V>>
    var globalBatchDone: bool
    var batches: seq<Batch<V>>
    ghost var archived: seq<Batch<V>>
    ghost var history: seq<Batch<V>>

    ghost function Fields(): View<V>
      reads this
    {
      View(fetched, consumed, microIter, globalIter, prefetched, globalBatchDone, batches, archived, history)
    }

    ghost predicate Valid()
      reads this
    {
      Ok(c, keys, feed, Fields())
    }

    ghost function Stream(): seq<Batch<V>>
      reads this
      requires Valid()
    {
      StreamOf(c, keys, feed, Fields())
    }

    constructor (c: Setting, keys: set<string>, feed: seq<Batch<V>>)
      requires Usable(c, keys, feed)
      ensures Valid() && this.c == c && this.keys == keys && this.feed == feed
      ensures Stream() == MicrosOfFeed(c, keys, feed) && history == [] && archived == []
    {
      this.c, this.keys, this.feed := c, keys, feed;
      fetched, consumed, microIter, globalIter, prefetched := 0, 0, [], [], None;
      globalBatchDone, batches, archived, history := false, [], [], [];
      new;
      InitialOk(c, keys, feed);
      assert Fields() == Initial();
    }

    /** `_get_next_micro_batch`; nothing is returned where the code lets StopIteration escape. */
    method GetNextMicroBatch() returns (r: Option<Batch<V>>)
      requires Valid()
      modifies this
      ensures Valid()
      ensures r.None? <==> !Loaded(old(Fields()))
      ensures r.None? ==> Fields() == old(Fields())
      ensures r.Some? ==> r.value == Given(old(Fields())) && Fields() == GiveStep(c, old(Fields()))
    {
      hide Ok, StreamOf;
      if prefetched.Some? {
        r := prefetched;
        prefetched := None;
        UnprefetchOk(c, keys, feed, old(Fields()));
        assert Fields() == old(Fields()).(prefetched := None);
      } else if microIter == [] {
        r := None;
      } else {
        // The assertion on the counter in the else-branch is the one in the code.
        TakeOk(c, keys, feed, Fields());
        FirstSize(c, keys, feed, Fields());
        r := Some(microIter[0]);
        globalBatchDone := false;
        consumed := consumed + |microIter[0][c.tk]|;
        batches := batches + [microIter[0]];
        history := history + [microIter[0]];
        microIter := microIter[1..];
        if consumed == c.global {
          consumed := 0;
          globalBatchDone := true;
        } else {
          assert consumed < c.global;
        }
        assert Fields() == TakeStep(c, old(Fields()));
      }
    }

    /** `__next__`: raises at the end of the stream, otherwise returns its first micro-batch. */
    method Next() returns (r: Outcome<Batch<V>>)
      requires Valid()
      modifies this
      ensures Valid()
      ensures r.Raised? <==> old(Stream()) == []
      ensures r.Raised? <==> Exhausted(feed, old(Fields()))
      ensures r.Raised? ==> Fields() == old(Fields())
      ensures r.Returned? ==> old(Stream()) == [r.value] + Stream() && IsMicro(c, keys, r.value)
      ensures r.Returned? ==>
        r.value == NextGiven(c, keys, feed, old(Fields())) && Fields() == NextStep(c, keys, feed, old(Fields()))
    {
      NextOk(c, keys, feed, Fields());
      hide Ok, StreamOf, Loaded, Given, GiveStep, Ready;
      NextIs(c, keys, feed, Fields());
      var micro := GetNextMicroBatch();
      if micro.Some? {
        return Returned(micro.value);
      }
      var more := LoadMicroBatches();
      if !more {
        return Raised;
      }
      micro := GetNextMicroBatch();
      r := Returned(micro.value);
    }

    /**
     * The next global batch, from the next batch if there is none, is cut; at the end of the stream there is nothing to
     * cut.
     */
    method LoadMicroBatches() returns (more: bool)
      requires Valid() && !Loaded(Fields())
      modifies this
      ensures Valid()
      ensures more <==> !Exhausted(feed, old(Fields()))
      ensures Fields() == if more then Ready(c, keys, feed, old(Fields())) else old(Fields())
    {
      hide Ok, GlobalsOf, Split;
      Within(c, keys, feed, Fields());
      if globalIter == [] {
        if fetched == |feed| {
          return false;
        }
        FetchOk(c, keys, feed, Fields());
        globalIter := GlobalsOf(c, feed[fetched]);
        fetched := fetched + 1;
      }
      CutGlobalBatch();
      more := true;
    }

    method CutGlobalBatch()
      requires Valid() && prefetched.None? && microIter == [] && globalIter != []
      modifies this
      ensures Valid() && GoodSetting(c) && Good(c, keys, old(globalIter[0]))
        && Fields() == CutStep(c, keys, old(Fields()))
    {
      hide Ok;
      CutOk(c, keys, feed, Fields());
      var globalBatch := globalIter[0];
      globalIter := globalIter[1..];
      PieceSizeDivides(c, |globalBatch[c.tk]|);
      microIter := Split(c, globalBatch, |globalBatch[c.tk]| / (|globalBatch[c.tk]| / c.micro));
    }

    /** `prefetch_one_batch`: the sequence of micro-batches to come stays the same. */
    method PrefetchOneBatch() returns (r: Outcome<Batch<V>>)
      requires Valid()
      modifies this
      ensures Valid() && Stream() == old(Stream())
      ensures r.Raised? <==> Stream() == []
      ensures r.Raised? ==> Fields() == old(Fields())
      ensures r.Returned? ==> r.value == Stream()[0]
      ensures r.Returned? ==> !Exhausted(feed, old(Fields())) && Fields() == PrefetchStep(c, keys, feed, old(Fields()))
    {
      hide Ok, StreamOf;
      NextOk(c, keys, feed, Fields());
      if prefetched.None? {
        var next := Next();
        if next.Raised? {
          return Raised;
        }
        prefetched := Some(next.value);
        PrefetchKeeps(c, keys, feed, old(Fields()));
        assert Fields() == PrefetchStep(c, keys, feed, old(Fields()));
      }
      HeadIsPrefetched(c, keys, feed, Fields());
      r := Returned(prefetched.value);
    }

    /** `check_finished_global_batch` passes exactly at positive multiples of the global batch size. */
    method CheckFinishedGlobalBatch() returns (r: Outcome<()>)
      requires Valid()
      ensures r.Returned? <==> Taken(c, Fields()) > 0 && Taken(c, Fields()) % c.global == 0
    {
      TakenPositive(c, keys, feed, Fields());
      hide Ok;
      r := if globalBatchDone then Returned(()) else Raised;
    }

    /** `get_all_batches`: the merged micro-batches taken since the last call, in order, every sample whole. */
    method GetAllBatches() returns (r: Batch<V>)
      requires Valid()
      modifies this
      ensures Valid() && Stream() == old(Stream()) && Fields() == Cleared(old(Fields()))
      ensures old(batches) == [] ==> r == map[]
      ensures old(batches) != [] ==>
        && AllAligned(old(batches), c.tk) && r.Keys == keys && Aligned(r, c.tk)
        && Rows(r, c.tk) == Samples(old(batches), c.tk)
    {
      hide Ok, StreamOf;
      LogShapes(c, keys, feed, Fields());
      if batches != [] {
        MergedInOrder(batches, keys, c.tk);
      }
      r := Merged(batches);
      archived := archived + batches;
      batches := [];
      LogCleared(c, keys, feed, old(Fields()));
      assert Fields() == Cleared(old(Fields()));
    }
  }
}
