/** Tensors of two and three dimensions as nested sequences, and the reshaping between them. */
module Tensors {
  import opened Arithmetic

  type Matrix<T> = seq<seq<T>>
  type Cube<T> = seq<seq<seq<T>>>

  predicate IsMatrix<T>(m: Matrix<T>, rows: nat, columns: nat) {
    |m| == rows && forall i :: 0 <= i < rows ==> |m[i]| == columns
  }

  predicate IsCube<T>(t: Cube<T>, a: nat, b: nat, c: nat) {
    |t| == a && forall i :: 0 <= i < a ==> IsMatrix(t[i], b, c)
  }

  /** `transpose(1, 2)` of one slice. */
  function Transposed<T>(m: Matrix<T>, rows: nat, columns: nat): (r: Matrix<T>)
    requires IsMatrix(m, rows, columns)
    ensures IsMatrix(r, columns, rows)
    ensures forall i, j :: 0 <= i < columns && 0 <= j < rows ==> r[i][j] == m[j][i]
  {
    seq(columns, i requires 0 <= i < columns => seq(rows, j requires 0 <= j < rows => m[j][i]))
  }

  lemma TransposedTwice<T>(m: Matrix<T>, rows: nat, columns: nat)
    requires IsMatrix(m, rows, columns)
    ensures Transposed(Transposed(m, rows, columns), columns, rows) == m
  {
    var t := Transposed(Transposed(m, rows, columns), columns, rows);
    forall i | 0 <= i < rows
      ensures t[i] == m[i]
    {
    }
  }

  /** `t.transpose(1, 2).reshape(a * c, b)`. */
  function Flatten<T>(t: Cube<T>, b: nat, c: nat): (r: Matrix<T>)
    requires IsCube(t, |t|, b, c)
    ensures IsMatrix(r, Product(|t|, c), b)
  {
    ProductNext(|t|, c);
    if t == [] then [] else Flatten(t[..|t| - 1], b, c) + Transposed(t[|t| - 1], b, c)
  }

  /** `f.reshape(a, c, b).transpose(1, 2)`. */
  function Unflatten<T>(f: Matrix<T>, a: nat, b: nat, c: nat): (r: Cube<T>)
    requires IsMatrix(f, Product(a, c), b)
    ensures IsCube(r, a, b, c)
  {
    ProductNext(a, c);
    if a == 0 then [] else
      Unflatten(f[..Product(a - 1, c)], a - 1, b, c) + [Transposed(f[Product(a - 1, c)..], c, b)]
  }

  /** Step `k` of chunk `i` is row `i * c + k`. */
  lemma {:induction false} FlattenAt<T>(t: Cube<T>, b: nat, c: nat, i: nat, j: nat, k: nat)
    requires IsCube(t, |t|, b, c) && i < |t| && j < b && k < c
    ensures Product(i, c) + k < Product(|t|, c) && Flatten(t, b, c)[Product(i, c) + k][j] == t[i][j][k]
    decreases |t|
  {
    var last := |t| - 1;
    ProductNext(|t|, c);
    ProductNext(i + 1, c);
    ProductMonotone(i + 1, |t|, c);
    if i < last {
      FlattenAt(t[..last], b, c, i, j, k);
    }
  }

  /** Flattening and unflattening are inverse to each other. */
  lemma {:induction false} UnflattenFlatten<T>(t: Cube<T>, b: nat, c: nat)
    requires IsCube(t, |t|, b, c)
    ensures Unflatten(Flatten(t, b, c), |t|, b, c) == t
  {
    ProductNext(|t|, c);
    if t != [] {
      var init, last := t[..|t| - 1], t[|t| - 1];
      var f := Flatten(t, b, c);
      hide Product;
      UnflattenFlatten(init, b, c);
      assert f[..Product(|t| - 1, c)] == Flatten(init, b, c);
      assert f[Product(|t| - 1, c)..] == Transposed(last, b, c);
      TransposedTwice(last, b, c);
    }
  }

  lemma {:induction false} FlattenUnflatten<T>(f: Matrix<T>, a: nat, b: nat, c: nat)
    requires IsMatrix(f, Product(a, c), b)
    ensures Flatten(Unflatten(f, a, b, c), b, c) == f
  {
    ProductNext(a, c);
    if a > 0 {
      var cut := Product(a - 1, c);
      hide Product;
      FlattenUnflatten(f[..cut], a - 1, b, c);
      TransposedTwice(f[cut..], c, b);
      var t := Unflatten(f, a, b, c);
      assert t[..a - 1] == Unflatten(f[..cut], a - 1, b, c);
      assert f == f[..cut] + f[cut..];
    }
  }

  /** Row `i * c + k` becomes step `k` of chunk `i`. */
  lemma UnflattenAt<T>(f: Matrix<T>, a: nat, b: nat, c: nat, i: nat, j: nat, k: nat)
    requires IsMatrix(f, Product(a, c), b) && i < a && j < b && k < c
    ensures Product(i, c) + k < Product(a, c) && Unflatten(f, a, b, c)[i][j][k] == f[Product(i, c) + k][j]
  {
    FlattenUnflatten(f, a, b, c);
    FlattenAt(Unflatten(f, a, b, c), b, c, i, j, k);
  }
}
