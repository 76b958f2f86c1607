/** Batches as dictionaries of equally long columns: rows, slices, shuffles and splits. */
module BatchTables {
  import opened Arithmetic

  /** One list or tensor per key; entry `i` of every column belongs to sample `i`. */
  type Batch<V> = map<string, seq<V>>

  /** `b` has the column `tk`, and all columns are as long as it. */
  ghost predicate Aligned<V>(b: Batch<V>, tk: string) {
    tk in b && forall key :: key in b ==> |b[key]| == |b[tk]|
  }

  /** The samples of a batch: one value per key. */
  ghost function Rows<V>(b: Batch<V>, tk: string): (r: seq<map<string, V>>)
    requires Aligned(b, tk)
    ensures |r| == |b[tk]|
  {
    seq(|b[tk]|, i requires 0 <= i < |b[tk]| => map key | key in b :: b[key][i])
  }

  function Slice<V>(b: Batch<V>, lo: nat, hi: nat): Batch<V>
    requires lo <= hi && forall key :: key in b ==> hi <= |b[key]|
  {
    map key | key in b :: b[key][lo..hi]
  }

  lemma PermutationFacts(perm: seq<nat>, n: nat)
    requires IsPermutation(perm, n)
    ensures |perm| == n && forall i :: 0 <= i < n ==> perm[i] < n
  {
    var range := Range(n);
    assert |multiset(perm)| == |multiset(range)|;
    forall i | 0 <= i < |perm|
      ensures perm[i] < n
    {
      assert perm[i] in multiset(perm);
      assert perm[i] in range;
    }
  }

  /** `v[indices]` for every column. */
  function Permute<V>(b: Batch<V>, perm: seq<nat>): Batch<V>
    requires forall key, i :: key in b && 0 <= i < |perm| ==> perm[i] < |b[key]|
  {
    map key | key in b :: seq(|perm|, i requires 0 <= i < |perm| => b[key][perm[i]])
  }

  function Gather<T>(s: seq<T>, perm: seq<nat>): (r: seq<T>)
    requires forall i :: 0 <= i < |perm| ==> perm[i] < |s|
    ensures |r| == |perm|
  {
    seq(|perm|, i requires 0 <= i < |perm| => s[perm[i]])
  }

  lemma LargestAt(perm: seq<nat>, n: nat) returns (j: nat)
    requires IsPermutation(perm, n + 1)
    ensures j < |perm| && perm[j] == n
  {
    assert Range(n + 1)[n] == n;
    assert n in multiset(perm);
    j :| 0 <= j < |perm| && perm[j] == n;
  }

  lemma {:induction false} GatherMultiset<T>(s: seq<T>, perm: seq<nat>)
    requires IsPermutation(perm, |s|)
    ensures forall i :: 0 <= i < |perm| ==> perm[i] < |s|
    ensures multiset(Gather(s, perm)) == multiset(s)
  {
    PermutationFacts(perm, |s|);
    if s == [] {
      assert perm == [];
    } else {
      var n := |s| - 1;
      var j := LargestAt(perm, n);
      var rest := perm[..j] + perm[j + 1..];
      RestPermutes(perm, j, n);
      PermutationFacts(rest, n);
      hide IsPermutation, Gather;
      GatherMultiset(s[..n], rest);
      GatherSplit(s, perm, j, n, rest);
    }
  }

  lemma RestPermutes(perm: seq<nat>, j: nat, n: nat)
    requires j < |perm| && perm[j] == n
    requires IsPermutation(perm, n + 1)
    ensures IsPermutation(perm[..j] + perm[j + 1..], n)
  {
    assert perm == perm[..j] + [n] + perm[j + 1..];
    assert Range(n + 1) == Range(n) + [n];
    var m, k := multiset(perm[..j] + perm[j + 1..]), multiset(Range(n));
    assert m + multiset{n} == k + multiset{n};
    assert m == m + multiset{n} - multiset{n};
    assert k == k + multiset{n} - multiset{n};
  }

  lemma GatherParts<T>(s: seq<T>, perm: seq<nat>, j: nat, n: nat, rest: seq<nat>)
    requires |s| == n + 1 && j < |perm| && perm[j] == n
    requires forall i :: 0 <= i < |perm| ==> perm[i] < |s|
    requires rest == perm[..j] + perm[j + 1..] && forall i :: 0 <= i < |rest| ==> rest[i] < n
    ensures Gather(s, perm) == Gather(s[..n], rest)[..j] + [s[n]] + Gather(s[..n], rest)[j..]
  {
  }

  lemma Inserted<T>(h: seq<T>, j: nat, x: T)
    requires j <= |h|
    ensures multiset(h[..j] + [x] + h[j..]) == multiset(h) + multiset{x}
  {
    assert h == h[..j] + h[j..];
  }

  lemma GatherSplit<T>(s: seq<T>, perm: seq<nat>, j: nat, n: nat, rest: seq<nat>)
    requires |s| == n + 1 && j < |perm| && perm[j] == n
    requires forall i :: 0 <= i < |perm| ==> perm[i] < |s|
    requires rest == perm[..j] + perm[j + 1..] && forall i :: 0 <= i < |rest| ==> rest[i] < n
    requires multiset(Gather(s[..n], rest)) == multiset(s[..n])
    ensures multiset(Gather(s, perm)) == multiset(s)
  {
    hide Gather;
    GatherParts(s, perm, j, n, rest);
    Inserted(Gather(s[..n], rest), j, s[n]);
    assert s == s[..n] + [s[n]];
  }

  /** Shuffling permutes the samples and keeps every sample whole. */
  lemma PermuteRows<V>(b: Batch<V>, tk: string, perm: seq<nat>)
    requires Aligned(b, tk) && IsPermutation(perm, |b[tk]|)
    ensures forall key, i :: key in b && 0 <= i < |perm| ==> perm[i] < |b[key]|
    ensures Aligned(Permute(b, perm), tk) && |Permute(b, perm)[tk]| == |b[tk]| && Permute(b, perm).Keys == b.Keys
    ensures multiset(Rows(Permute(b, perm), tk)) == multiset(Rows(b, tk))
  {
    PermutationFacts(perm, |b[tk]|);
    GatherMultiset(Rows(b, tk), perm);
    var p := Permute(b, perm);
    forall i | 0 <= i < |perm|
      ensures Rows(p, tk)[i] == Rows(b, tk)[perm[i]]
    {
      assert forall key :: key in b ==> p[key][i] == b[key][perm[i]];
    }
    assert Rows(p, tk) == Gather(Rows(b, tk), perm);
  }

  /** `count` slices of `size` consecutive samples. */
  function Chunks<V>(b: Batch<V>, size: nat, count: nat): (r: seq<Batch<V>>)
    requires forall key :: key in b ==> |b[key]| == Product(count, size)
    ensures |r| == count
  {
    if count == 0 then []
    else
      ProductNext(count, size);
      [Slice(b, 0, size)] + Chunks(Slice(b, size, Product(count, size)), size, count - 1)
  }

  ghost predicate AllAligned<V>(bs: seq<Batch<V>>, tk: string) {
    forall j :: 0 <= j < |bs| ==> Aligned(bs[j], tk)
  }

  /** The samples of a list of batches. */
  ghost function AllRows<V>(bs: seq<Batch<V>>, tk: string): multiset<map<string, V>>
    requires AllAligned(bs, tk)
  {
    if bs == [] then multiset{} else multiset(Rows(bs[0], tk)) + AllRows(bs[1..], tk)
  }

  lemma {:induction false} AllRowsConcat<V>(a: seq<Batch<V>>, b: seq<Batch<V>>, tk: string)
    requires AllAligned(a, tk) && AllAligned(b, tk)
    ensures AllAligned(a + b, tk) && AllRows(a + b, tk) == AllRows(a, tk) + AllRows(b, tk)
  {
    if a == [] {
      assert a + b == b;
    } else {
      assert (a + b)[1..] == a[1..] + b;
      AllRowsConcat(a[1..], b, tk);
    }
  }

  lemma SliceRows<V>(b: Batch<V>, tk: string, lo: nat, hi: nat)
    requires Aligned(b, tk) && lo <= hi <= |b[tk]|
    ensures Aligned(Slice(b, lo, hi), tk) && |Slice(b, lo, hi)[tk]| == hi - lo && Slice(b, lo, hi).Keys == b.Keys
    ensures Rows(Slice(b, lo, hi), tk) == Rows(b, tk)[lo..hi]
  {
    forall i | 0 <= i < hi - lo
      ensures Rows(Slice(b, lo, hi), tk)[i] == Rows(b, tk)[lo + i]
    {
      assert forall key :: key in b ==> Slice(b, lo, hi)[key][i] == b[key][lo + i];
    }
  }

  /** A batch of `size` samples with the given columns. */
  ghost predicate IsChunk<V>(c: Batch<V>, keys: set<string>, tk: string, size: nat) {
    c.Keys == keys && Aligned(c, tk) && |c[tk]| == size
  }

  lemma {:induction false} ChunksShape<V>(b: Batch<V>, tk: string, size: nat, count: nat)
    requires Aligned(b, tk) && |b[tk]| == Product(count, size)
    ensures forall j :: 0 <= j < count ==> IsChunk(Chunks(b, size, count)[j], b.Keys, tk, size)
  {
    if count > 0 {
      ProductNext(count, size);
      SliceRows(b, tk, 0, size);
      SliceRows(b, tk, size, Product(count, size));
      hide Product, Aligned, Slice;
      ChunksShape(Slice(b, size, Product(count, size)), tk, size, count - 1);
    }
  }

  lemma AllRowsFirst<V>(first: Batch<V>, rest: seq<Batch<V>>, tk: string)
    requires Aligned(first, tk) && AllAligned(rest, tk)
    ensures AllAligned([first] + rest, tk)
      && AllRows([first] + rest, tk) == multiset(Rows(first, tk)) + AllRows(rest, tk)
  {
    assert ([first] + rest)[1..] == rest;
  }

  lemma AllRowsHead<V>(bs: seq<Batch<V>>, tk: string)
    requires bs != [] && AllAligned(bs, tk)
    ensures Aligned(bs[0], tk) && AllAligned(bs[1..], tk)
    ensures AllRows(bs, tk) == multiset(Rows(bs[0], tk)) + AllRows(bs[1..], tk)
  {
  }

  lemma AllRowsSnoc<V>(bs: seq<Batch<V>>, b: Batch<V>, tk: string)
    requires AllAligned(bs, tk) && Aligned(b, tk)
    ensures AllAligned(bs + [b], tk) && AllRows(bs + [b], tk) == AllRows(bs, tk) + multiset(Rows(b, tk))
  {
    AllRowsConcat(bs, [b], tk);
    AllRowsHead([b], tk);
    hide Rows, Aligned;
    assert [b][1..] == [];
  }

  /** Splitting cuts the samples into pieces of the given size and loses none. */
  lemma {:induction false} ChunksRows<V>(b: Batch<V>, tk: string, size: nat, count: nat)
    requires Aligned(b, tk) && |b[tk]| == Product(count, size)
    ensures AllAligned(Chunks(b, size, count), tk)
    ensures AllRows(Chunks(b, size, count), tk) == multiset(Rows(b, tk))
  {
    hide Product;
    ProductNext(count, size);
    if count > 0 {
      var first, rest := Slice(b, 0, size), Slice(b, size, Product(count, size));
      SliceRows(b, tk, 0, size);
      SliceRows(b, tk, size, Product(count, size));
      hide Aligned, Rows, Slice;
      assert Rows(b, tk) == Rows(first, tk) + Rows(rest, tk);
      ChunksRows(rest, tk, size, count - 1);
      AllRowsFirst(first, Chunks(rest, size, count - 1), tk);
    }
  }

  /** `merge_batches`: column by column, in the order of the list. */
  function Merged<V>(bs: seq<Batch<V>>): Batch<V>
    requires forall j :: 0 <= j < |bs| ==> bs[j].Keys == bs[0].Keys
  {
    if bs == [] then map[] else map key | key in bs[0] :: ConcatColumn(bs, key)
  }

  function ConcatColumn<V>(bs: seq<Batch<V>>, key: string): seq<V>
    requires forall j :: 0 <= j < |bs| ==> key in bs[j]
  {
    if bs == [] then [] else ConcatColumn(bs[..|bs| - 1], key) + bs[|bs| - 1][key]
  }

  lemma MergedOne<V>(bs: seq<Batch<V>>, keys: set<string>, tk: string)
    requires |bs| == 1 && AllAligned(bs, tk) && bs[0].Keys == keys
    ensures Merged(bs) == bs[0] && AllRows(bs, tk) == multiset(Rows(bs[0], tk))
  {
    assert forall key :: key in keys ==> ConcatColumn(bs[..0], key) == [];
    assert forall key :: key in keys ==> ConcatColumn(bs, key) == bs[0][key];
    hide Rows, ConcatColumn;
    assert bs == [bs[0]] && bs[1..] == [];
  }

  lemma {:induction false} MergedRows<V>(bs: seq<Batch<V>>, keys: set<string>, tk: string)
    requires bs != [] && AllAligned(bs, tk) && forall j :: 0 <= j < |bs| ==> bs[j].Keys == keys
    ensures Merged(bs).Keys == keys && Aligned(Merged(bs), tk)
    ensures multiset(Rows(Merged(bs), tk)) == AllRows(bs, tk)
  {
    var n := |bs| - 1;
    if n == 0 {
      MergedOne(bs, keys, tk);
    } else {
      var init, last := bs[..n], bs[n];
      MergedRows(init, keys, tk);
      MergedSnoc(bs, keys, tk);
      hide Merged, Rows;
      assert bs == init + [last];
      assert Aligned(last, tk) && AllAligned(init, tk);
      hide *;
      AllRowsSnoc(init, last, tk);
    }
  }

  lemma MergedColumns<V>(bs: seq<Batch<V>>, keys: set<string>)
    requires |bs| > 1 && forall j :: 0 <= j < |bs| ==> bs[j].Keys == keys
    ensures var init, last := bs[..|bs| - 1], bs[|bs| - 1];
      Merged(bs).Keys == keys && Merged(init).Keys == keys && forall key :: key in keys ==>
        Merged(bs)[key] == Merged(init)[key] + last[key]
  {
  }

  /** Appending every column of `last` to that of `init` appends the samples. */
  lemma AppendedRows<V>(init: Batch<V>, last: Batch<V>, all: Batch<V>, tk: string)
    requires Aligned(init, tk) && Aligned(last, tk) && init.Keys == last.Keys == all.Keys
    requires forall key :: key in all ==> all[key] == init[key] + last[key]
    ensures Aligned(all, tk) && Rows(all, tk) == Rows(init, tk) + Rows(last, tk)
  {
    var m := |init[tk]|;
    forall i | 0 <= i < m + |last[tk]|
      ensures Rows(all, tk)[i] == (Rows(init, tk) + Rows(last, tk))[i]
    {
      assert forall key :: key in all ==> all[key][i] == if i < m then init[key][i] else last[key][i - m];
    }
  }

  lemma MergedSnoc<V>(bs: seq<Batch<V>>, keys: set<string>, tk: string)
    requires |bs| > 1 && AllAligned(bs, tk) && forall j :: 0 <= j < |bs| ==> bs[j].Keys == keys
    requires Aligned(Merged(bs[..|bs| - 1]), tk)
    ensures Merged(bs).Keys == keys && Aligned(Merged(bs), tk)
    ensures Rows(Merged(bs), tk) == Rows(Merged(bs[..|bs| - 1]), tk) + Rows(bs[|bs| - 1], tk)
  {
    MergedColumns(bs, keys);
    hide Merged, Rows;
    AppendedRows(Merged(bs[..|bs| - 1]), bs[|bs| - 1], Merged(bs), tk);
  }

  // ---------------------------------------------------------------- the order of the samples

  /** The samples of a list of batches, one after another. */
  ghost function Samples<V>(bs: seq<Batch<V>>, tk: string): seq<map<string, V>>
    requires AllAligned(bs, tk)
  {
    if bs == [] then [] else Rows(bs[0], tk) + Samples(bs[1..], tk)
  }

  lemma SamplesFirst<V>(first: Batch<V>, rest: seq<Batch<V>>, tk: string)
    requires Aligned(first, tk) && AllAligned(rest, tk)
    ensures AllAligned([first] + rest, tk) && Samples([first] + rest, tk) == Rows(first, tk) + Samples(rest, tk)
  {
    assert ([first] + rest)[1..] == rest;
  }

  lemma {:induction false} SamplesConcat<V>(a: seq<Batch<V>>, b: seq<Batch<V>>, tk: string)
    requires AllAligned(a, tk) && AllAligned(b, tk)
    ensures AllAligned(a + b, tk) && Samples(a + b, tk) == Samples(a, tk) + Samples(b, tk)
  {
    hide Rows, Aligned;
    if a == [] {
      assert a + b == b;
    } else {
      assert (a + b)[1..] == a[1..] + b;
      SamplesConcat(a[1..], b, tk);
    }
  }

  lemma SamplesOne<V>(b: Batch<V>, tk: string)
    requires Aligned(b, tk)
    ensures AllAligned([b], tk) && Samples([b], tk) == Rows(b, tk)
  {
    hide Rows, Aligned;
    SamplesFirst(b, [], tk);
    assert [b] + [] == [b];
  }

  /** The slices, joined, are the batch in its order. */
  lemma {:induction false} ChunksInOrder<V>(b: Batch<V>, tk: string, size: nat, count: nat)
    requires Aligned(b, tk) && |b[tk]| == Product(count, size)
    ensures AllAligned(Chunks(b, size, count), tk) && Samples(Chunks(b, size, count), tk) == Rows(b, tk)
  {
    hide Product;
    ProductNext(count, size);
    if count > 0 {
      var first, rest := Slice(b, 0, size), Slice(b, size, Product(count, size));
      SliceRows(b, tk, 0, size);
      SliceRows(b, tk, size, Product(count, size));
      hide Aligned, Rows, Slice;
      assert Rows(b, tk) == Rows(first, tk) + Rows(rest, tk);
      ChunksInOrder(rest, tk, size, count - 1);
      SamplesFirst(first, Chunks(rest, size, count - 1), tk);
    }
  }

  /** Row `i` of a shuffled batch is the row the permutation names. */
  lemma PermutedRow<V>(b: Batch<V>, tk: string, perm: seq<nat>)
    requires Aligned(b, tk) && IsPermutation(perm, |b[tk]|)
    ensures forall key, i :: key in b && 0 <= i < |perm| ==> perm[i] < |b[key]|
    ensures Aligned(Permute(b, perm), tk) && |Rows(Permute(b, perm), tk)| == |perm| == |b[tk]|
    ensures forall i :: 0 <= i < |perm| ==> perm[i] < |b[tk]| && Rows(Permute(b, perm), tk)[i] == Rows(b, tk)[perm[i]]
  {
    PermutationFacts(perm, |b[tk]|);
    var p := Permute(b, perm);
    forall i | 0 <= i < |perm|
      ensures Rows(p, tk)[i] == Rows(b, tk)[perm[i]]
    {
      assert forall key :: key in b ==> p[key][i] == b[key][perm[i]];
    }
  }

  /** Merging joins the samples in the order of the list. */
  lemma {:induction false} MergedInOrder<V>(bs: seq<Batch<V>>, keys: set<string>, tk: string)
    requires bs != [] && AllAligned(bs, tk) && forall j :: 0 <= j < |bs| ==> bs[j].Keys == keys
    ensures Merged(bs).Keys == keys && Aligned(Merged(bs), tk) && Rows(Merged(bs), tk) == Samples(bs, tk)
  {
    var n := |bs| - 1;
    if n == 0 {
      MergedOne(bs, keys, tk);
      hide *;
      assert bs == [bs[0]];
      SamplesOne(bs[0], tk);
    } else {
      var init, last := bs[..n], bs[n];
      MergedInOrder(init, keys, tk);
      MergedSnoc(bs, keys, tk);
      hide Merged, Rows;
      assert bs == init + [last];
      assert Aligned(last, tk) && AllAligned(init, tk);
      hide *;
      SamplesOne(last, tk);
      SamplesConcat(init, [last], tk);
    }
  }
}
