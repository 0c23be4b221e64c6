/** Integer facts about products, quotients and remainders that the solver needs spelled out. */
module Arith {

  lemma MulMono(a: int, b: int, d: nat)
    requires a <= b
    ensures a * d <= b * d
  {
  }

  lemma SmallMultiple(x: int, d: nat)
    requires 0 - d < x * d < d
    ensures x == 0
  {
    if x >= 1 {
      MulMono(1, x, d);
    } else if x <= -1 {
      MulMono(x, -1, d);
    }
  }

  /** A quotient and remainder are the only ones. */
  lemma DivModUnique(n: nat, d: nat, q: nat, m: nat)
    requires m < d && n == q * d + m
    ensures n / d == q && n % d == m
  {
    var q', m' := n / d, n % d;
    assert n == q' * d + m';
    assert (q - q') * d == m' - m;
    SmallMultiple(q - q', d);
  }

  lemma DivBound(n: nat, d: nat, bound: nat)
    requires d > 0 && n < bound * d
    ensures n / d < bound && n == n / d * d + n % d
  {
    if n / d >= bound {
      MulMono(bound, n / d, d);
    }
  }

  /** Row-major indices stay below the product and are distinct for distinct pairs. */
  lemma RowMajor(row: nat, col: nat, rows: nat, cols: nat)
    requires row < rows && col < cols
    ensures 0 <= row * cols + col < rows * cols
    ensures (row * cols + col) / cols == row && (row * cols + col) % cols == col
  {
    MulMono(row + 1, rows, cols);
    assert (row + 1) * cols == row * cols + cols;
    assert row * cols >= 0 by { MulMono(0, row, cols); }
    DivModUnique(row * cols + col, cols, row, col);
  }

  /** A row-major index determines its row and column. */
  lemma PairInjective(a: nat, b: nat, x: nat, y: nat, rows: nat, cols: nat)
    requires a < rows && x < rows && b < cols && y < cols && a * cols + b == x * cols + y
    ensures a == x && b == y
  {
    RowMajor(a, b, rows, cols);
    RowMajor(x, y, rows, cols);
  }

  lemma MultiplesApart(a: nat, b: nat, d: nat)
    requires d > 0 && a % d == 0 && b % d == 0
    ensures a > b ==> a >= b + d
  {
    var p, q := a / d, b / d;
    assert a == p * d && b == q * d;
    if p > q {
      MulMono(q + 1, p, d);
      Distribute(q, 1, d);
    } else {
      MulMono(p, q, d);
    }
  }

  lemma DividesTrans(a: nat, b: nat, c: nat)
    requires b > 0 && c > 0 && a % b == 0 && b % c == 0
    ensures a % c == 0
  {
    var p, q := a / b, b / c;
    assert a == p * b && b == q * c;
    Associate(p, q, c);
    MulMono(0, p, q);
    DivModUnique(a, c, p * q, 0);
  }

  lemma Distribute(a: int, b: int, c: int)
    ensures (a + b) * c == a * c + b * c
  {
  }

  lemma Associate(a: int, b: int, c: int)
    ensures a * b * c == a * (b * c)
  {
  }
}
