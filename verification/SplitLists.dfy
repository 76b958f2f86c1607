/** `split_list` in its two modes. */
module SplitLists {
  import opened Wrappers
  import opened Arithmetic
  import opened Lists

  /** Slices of `size` elements; the last one may be shorter. */
  function Pieces<T>(s: seq<T>, size: nat): seq<seq<T>>
    requires size > 0
  {
    if |s| <= size then (if s == [] then [] else [s]) else [s[..size]] + Pieces(s[size..], size)
  }

  /** Where chunk `i` starts when `n` elements are dealt to `count` chunks as evenly as possible. */
  function Bound(n: nat, count: nat, i: nat): nat
    requires count > 0
  {
    Product(i, n / count) + Min(i, n % count)
  }

  lemma BoundNext(n: nat, count: nat, i: nat)
    requires 0 < count && i < count
    ensures Bound(n, count, i + 1) == Bound(n, count, i) + n / count + if i < n % count then 1 else 0
  {
    ProductNext(i + 1, n / count);
  }

  lemma {:induction false} BoundBelow(n: nat, count: nat, i: nat)
    requires 0 < count && i <= count
    ensures Bound(n, count, i) <= n && Bound(n, count, count) == n
    decreases count - i
  {
    if i == count {
      assert n == count * (n / count) + n % count;
    } else {
      BoundBelow(n, count, i + 1);
      BoundNext(n, count, i);
    }
  }

  /** The chunks from number `i` on. */
  function Dealt<T>(s: seq<T>, count: nat, i: nat): (r: seq<seq<T>>)
    requires 0 < count && i <= count
    ensures |r| == count - i
    decreases count - i
  {
    if i == count then []
    else
      BoundBelow(|s|, count, i + 1);
      BoundNext(|s|, count, i);
      [s[Bound(|s|, count, i)..Bound(|s|, count, i + 1)]] + Dealt(s, count, i + 1)
  }

  /** `split_list`; the divisions by zero and the assertion raise. */
  function SplitList<T>(s: seq<T>, count: nat, enforce: bool): Outcome<seq<seq<T>>> {
    if count == 0 then Raised
    else if !enforce then Returned(Dealt(s, count, 0))
    else if |s| / count == 0 || |s| % (|s| / count) != 0 then Raised
    else Returned(Pieces(s, |s| / count))
  }

  lemma {:induction false} PiecesKeep<T>(s: seq<T>, size: nat)
    requires size > 0
    ensures Concat(Pieces(s, size)) == s
  {
    if |s| > size {
      PiecesKeep(s[size..], size);
      ConcatCons(s[..size], Pieces(s[size..], size));
      hide Concat;
      assert s == s[..size] + s[size..];
    } else if s != [] {
      ConcatSnoc([], s);
      assert [] + [s] == [s];
    }
  }

  lemma {:induction false} PiecesEqual<T>(s: seq<T>, size: nat, count: nat)
    requires size > 0 && |s| == Product(count, size)
    ensures |Pieces(s, size)| == count && forall i :: 0 <= i < count ==> |Pieces(s, size)[i]| == size
  {
    ProductNext(count, size);
    if count > 0 {
      ProductNext(count - 1, size);
      if count > 1 {
        hide Product;
        PiecesEqual(s[size..], size, count - 1);
      }
    }
  }

  lemma DealtNext<T>(s: seq<T>, count: nat, i: nat)
    requires i < count
    ensures Bound(|s|, count, i) <= Bound(|s|, count, i + 1) <= |s|
    ensures Dealt(s, count, i) == [s[Bound(|s|, count, i)..Bound(|s|, count, i + 1)]] + Dealt(s, count, i + 1)
  {
    BoundBelow(|s|, count, i + 1);
    BoundNext(|s|, count, i);
    hide Bound;
  }

  lemma DealtNone<T>(s: seq<T>, count: nat)
    requires 0 < count
    ensures Concat(Dealt(s, count, count)) == []
  {
  }

  lemma {:induction false} DealtKeeps<T>(s: seq<T>, count: nat, i: nat)
    requires 0 < count && i <= count
    ensures Bound(|s|, count, i) <= |s| && Concat(Dealt(s, count, i)) == s[Bound(|s|, count, i)..]
    decreases count - i
  {
    BoundBelow(|s|, count, i);
    hide *;
    if i == count {
      DealtNone(s, count);
    } else {
      DealtNext(s, count, i);
      DealtKeeps(s, count, i + 1);
      var a, b := Bound(|s|, count, i), Bound(|s|, count, i + 1);
      ConcatCons(s[a..b], Dealt(s, count, i + 1));
      assert s[a..] == s[a..b] + s[b..];
    }
  }

  lemma BoundFirst(n: nat, count: nat)
    requires 0 < count
    ensures Bound(n, count, 0) == 0
  {
    ProductNext(0, n / count);
  }

  /** No mode loses, repeats or reorders an element. */
  lemma SplitListKeeps<T>(s: seq<T>, count: nat, enforce: bool)
    ensures SplitList(s, count, enforce).Returned? ==> Concat(SplitList(s, count, enforce).value) == s
  {
    hide Dealt, Pieces, Concat, Bound;
    if count > 0 && !enforce {
      DealtKeeps(s, count, 0);
      BoundFirst(|s|, count);
    } else if count > 0 && |s| / count > 0 {
      PiecesKeep(s, |s| / count);
    }
  }

  lemma {:induction false} DealtSizes<T>(s: seq<T>, count: nat, i: nat, j: nat)
    requires 0 < count && i + j < count
    ensures |Dealt(s, count, i)[j]| == |s| / count + if i + j < |s| % count then 1 else 0
    decreases j
  {
    hide *;
    DealtNext(s, count, i);
    BoundNext(|s|, count, i);
    if j > 0 {
      DealtSizes(s, count, i + 1, j - 1);
    }
  }

  /** Without enforcement there are always `count` chunks, whose sizes differ by at most one. */
  lemma UnenforcedIsEven<T>(s: seq<T>, count: nat)
    requires count > 0
    ensures var r := SplitList(s, count, false).value;
      |r| == count && forall i, j :: 0 <= i < j < count ==> 0 <= |r[i]| - |r[j]| <= 1
  {
    forall i | 0 <= i < count
      ensures |Dealt(s, count, 0)[i]| == |s| / count + if i < |s| % count then 1 else 0
    {
      DealtSizes(s, count, 0, i);
    }
  }

  /**
   * With enforcement the check is on the chunk size, not on the number of chunks: `count` chunks come out iff `count`
   * divides the length.
   */
  lemma EnforcedCountIff<T>(s: seq<T>, count: nat)
    requires SplitList(s, count, true).Returned?
    ensures |SplitList(s, count, true).value| == count <==> |s| % count == 0
    ensures forall i :: 0 <= i < |SplitList(s, count, true).value| ==>
      |SplitList(s, count, true).value[i]| == |s| / count
  {
    var size := |s| / count;
    DividesProduct(size, |s|);
    PiecesEqual(s, size, |s| / size);
    assert |s| == Product(count, size) + |s| % count;
    if |s| % count == 0 {
      QuotientExact(count, size);
    }
  }

  /** Three elements in two chunks are accepted, and give three. */
  lemma EnforcedCanMiscount()
    ensures SplitList([1, 2, 3], 2, true) == Returned([[1], [2], [3]])
  {
    var s, t := [1, 2, 3], [2, 3];
    assert t[..1] == [2] && t[1..] == [3] && Pieces([3], 1) == [[3]];
    assert Pieces(t, 1) == [[2]] + Pieces([3], 1) == [[2], [3]];
    assert s[..1] == [1] && s[1..] == t;
    assert Pieces(s, 1) == [[1]] + Pieces(t, 1) == [[1], [2], [3]];
    assert |s| / 2 == 1 && |s| % 1 == 0;
  }
}
