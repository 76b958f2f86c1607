/** Minima, sums and permutations of ranges; products, multiples and remainders, with multiplication out of sight. */
module Arithmetic {

  function Min(a: nat, b: nat): nat {
    if a < b then a else b
  }

  function Sum(s: seq<int>): int {
    if s == [] then 0 else Sum(s[..|s| - 1]) + s[|s| - 1]
  }

  lemma {:induction false} SumOfNats(s: seq<nat>)
    ensures Sum(s) >= 0
  {
    if s != [] {
      SumOfNats(s[..|s| - 1]);
    }
  }

  function Range(n: nat): seq<nat> {
    seq(n, i => i)
  }

  /** `perm` lists each of `0..n-1` exactly once. */
  ghost predicate IsPermutation(perm: seq<nat>, n: nat) {
    multiset(perm) == multiset(Range(n))
  }

  lemma TimesNext(n: nat, c: nat)
    ensures (n + 1) * c == n * c + c
  {
  }

  function Product(count: nat, size: nat): nat {
    count * size
  }

  lemma ProductNext(count: nat, size: nat)
    ensures count == 0 ==> Product(count, size) == 0
    ensures count > 0 ==> Product(count, size) == Product(count - 1, size) + size
  {
  }

  lemma ProductCommutes(a: nat, b: nat)
    ensures Product(a, b) == Product(b, a)
  {
  }

  predicate Divides(c: nat, n: nat) {
    c > 0 && n % c == 0
  }

  lemma DividesProduct(c: nat, n: nat)
    requires Divides(c, n)
    ensures n == Product(n / c, c)
    ensures n > 0 ==> n / c > 0
  {
  }

  /** Two multiples of `c` are at least `c` apart. */
  lemma MultipleGap(c: nat, a: nat, b: nat)
    requires Divides(c, a) && Divides(c, b) && a < b
    ensures a + c <= b
  {
    var p, q := a / c, b / c;
    DividesProduct(c, a);
    DividesProduct(c, b);
    hide *;
    if q <= p {
      ProductMonotone(q, p, c);
    } else {
      ProductMonotone(p + 1, q, c);
      ProductNext(p + 1, c);
    }
  }

  lemma {:induction false} ProductMonotone(a: nat, b: nat, c: nat)
    requires a <= b
    ensures Product(a, c) <= Product(b, c)
  {
    if a < b {
      ProductMonotone(a, b - 1, c);
      ProductNext(b, c);
    }
  }

  /** Division with remainder. */
  lemma Remainder(n: nat, c: nat)
    requires c > 0
    ensures n == Product(n / c, c) + n % c && n % c < c
  {
  }

  lemma QuotientUnique(n: nat, g: nat, q: nat, r: nat)
    requires g > 0 && n == Product(q, g) + r && r < g
    ensures n % g == r
  {
    var p, s := n / g, n % g;
    assert n == Product(p, g) + s;
    if p < q {
      ProductMonotone(p + 1, q, g);
      ProductNext(p + 1, g);
    } else if q < p {
      ProductMonotone(q + 1, p, g);
      ProductNext(q + 1, g);
    }
  }

  /** `i` and `j` differ by less than `c` and by a multiple of `c`. */
  lemma CloseAndCongruent(i: nat, j: nat, c: nat, s: nat, t: nat, r: nat)
    requires i < j + c && j < i + c
    requires i == Product(s, c) + r && j == Product(t, c) + r
    ensures i == j
  {
    hide Product;
    if s < t {
      ProductMonotone(s + 1, t, c);
      ProductNext(s + 1, c);
    } else if t < s {
      ProductMonotone(t + 1, s, c);
      ProductNext(t + 1, c);
    }
  }

  /** Counting up to `g` and starting again at zero is counting modulo `g`. */
  lemma CountModulo(taken: nat, c: nat, g: nat)
    requires g > 0 && taken % g + c <= g
    ensures (taken + c) % g == if taken % g + c == g then 0 else taken % g + c
  {
    var q, r := taken / g, taken % g;
    assert taken == Product(q, g) + r;
    if r + c == g {
      ProductNext(q + 1, g);
      QuotientUnique(taken + c, g, q + 1, 0);
    } else {
      QuotientUnique(taken + c, g, q, r + c);
    }
  }

  lemma DividesSum(c: nat, a: nat)
    requires Divides(c, a)
    ensures Divides(c, a + c)
  {
    DividesProduct(c, a);
    ProductNext(a / c + 1, c);
    QuotientUnique(a + c, c, a / c + 1, 0);
  }

  lemma QuotientExact(a: nat, b: nat)
    requires b > 0
    ensures Product(a, b) / b == a
  {
    var n := Product(a, b);
    var q := n / b;
    assert n == Product(q, b) + n % b;
    hide Product;
    if q < a {
      ProductMonotone(q + 1, a, b);
      ProductNext(q + 1, b);
    } else if a < q {
      ProductMonotone(a + 1, q, b);
      ProductNext(a + 1, b);
    }
  }
}
