/** Index arithmetic shared by every engine: the flat index that the
    parallel CPU paths and the device kernel split into a cell (i, j), and
    the transposed layout `i + j * n` of the device buffers. */
module Indexing {

  function Min(a: int, b: int): int { if a <= b then a else b }
  function Max(a: int, b: int): int { if a <= b then b else a }

  lemma MulMonotone(a: int, b: int, d: int)
    requires a <= b && d >= 0
    ensures a * d <= b * d
  {
    assert b * d - a * d == (b - a) * d;
  }

  /** If the c-th lane group starts before the end of q groups, it ends within them. */
  lemma NextChunkFits(c: int, q: int, s: int)
    requires s > 0 && c * s < q * s
    ensures (c + 1) * s <= q * s
  {
    if q <= c {
      MulMonotone(q, c, s);
    } else {
      MulMonotone(c + 1, q, s);
    }
  }

  /** The only multiple of d strictly between -d and d is 0. */
  lemma ZeroMultiple(t: int, d: int)
    requires d > 0 && -d < t * d < d
    ensures t == 0
  {
    if t >= 1 {
      MulMonotone(1, t, d);
    } else if t <= -1 {
      MulMonotone(t, -1, d);
    }
  }

  /** Euclidean division is determined by quotient and remainder. */
  lemma DivModUnique(x: int, d: int, q: int, r: int)
    requires d > 0 && 0 <= r < d && x == q * d + r
    ensures x / d == q && x % d == r
  {
    var q', r' := x / d, x % d;
    assert (q - q') * d == r' - r;
    ZeroMultiple(q - q', d);
  }

  /** The flat index of cell (i, j) in an n-wide layout: `i + j * n`. */
  function Flat(n: nat, i: nat, j: nat): nat { i + j * n }

  /** Splitting a flat index inverts `Flat`. */
  lemma SplitFlat(n: nat, i: nat, j: nat)
    requires i < n
    ensures Flat(n, i, j) % n == i && Flat(n, i, j) / n == j
  {
    DivModUnique(i + j * n, n, j, i);
  }

  /** Two cells of an n-wide layout with the same flat index are the same cell. */
  lemma FlatInjective(n: nat, x: nat, y: nat, i: nat, j: nat)
    requires x < n && i < n && Flat(n, x, y) == Flat(n, i, j)
    ensures x == i && y == j
  {
    assert (y - j) * n == i - x;
    ZeroMultiple(y - j, n);
  }

  /** Every flat index below `n * m` splits into a cell of the n-by-m grid. */
  lemma SplitBounds(n: nat, m: nat, k: nat)
    requires k < n * m
    ensures n > 0 && k % n < n && k / n < m
    ensures k == Flat(n, k % n, k / n)
  {
  }

  /** Every cell of the n-by-m grid has a flat index below `n * m`. */
  lemma FlatBounds(n: nat, m: nat, i: nat, j: nat)
    requires i < n && j < m
    ensures Flat(n, i, j) < n * m
  {
    assert (j + 1) * n <= m * n;
  }

  /** (i, j) |-> i + j * n is a bijection from [0, n) x [0, m) onto [0, n * m). */
  lemma {:induction false} FlatBijection(n: nat, m: nat)
    ensures forall i, j :: 0 <= i < n && 0 <= j < m ==> Flat(n, i, j) < n * m
    ensures forall i, j, i', j' :: 0 <= i < n && 0 <= j < m && 0 <= i' < n && 0 <= j' < m && Flat(n, i, j) == Flat(n, i', j') ==> i == i' && j == j'
    ensures forall k :: 0 <= k < n * m ==> k % n < n && k / n < m && Flat(n, k % n, k / n) == k
  {
    forall i, j | 0 <= i < n && 0 <= j < m
      ensures Flat(n, i, j) < n * m
    {
      FlatBounds(n, m, i, j);
    }
    forall i, j, i', j' | 0 <= i < n && 0 <= j < m && 0 <= i' < n && 0 <= j' < m && Flat(n, i, j) == Flat(n, i', j')
      ensures i == i' && j == j'
    {
      SplitFlat(n, i, j);
      SplitFlat(n, i', j');
    }
    forall k | 0 <= k < n * m
      ensures k % n < n && k / n < m && Flat(n, k % n, k / n) == k
    {
      SplitBounds(n, m, k);
    }
  }

  /** The flat index that owns the unordered cell pair {(a, b), (b, a)}:
      the smaller coordinate plus the larger one times n. */
  function Owner(n: nat, a: nat, b: nat): nat { Flat(n, Min(a, b), Max(a, b)) }

  /** A flat index k owns the cells with {a, b} == {k % n, k / n}, and only those. */
  lemma OwnerIs(n: nat, k: nat, a: nat, b: nat)
    requires a < n && b < n
    ensures Owner(n, a, b) == k <==> Min(a, b) == k % n && Max(a, b) == k / n
  {
    SplitFlat(n, Min(a, b), Max(a, b));
    assert k == Flat(n, k % n, k / n);
  }
}
