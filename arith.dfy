/** JavaScript arithmetic the model needs on unbounded integers and exact reals:
    `Math.max`, `Math.min`, `Math.abs`, and the `%` operator, which truncates toward zero
    where Dafny's `%` is Euclidean. */
module JsMath {

  function Max(a: real, b: real): (r: real)
    ensures r >= a && r >= b && (r == a || r == b)
  {
    if a >= b then a else b
  }

  function Min(a: real, b: real): (r: real)
    ensures r <= a && r <= b && (r == a || r == b)
  {
    if a <= b then a else b
  }

  function Abs(a: real): (r: real)
    ensures r >= 0.0 && (r == a || r == -a)
  {
    if a < 0.0 then -a else a
  }

  /** `%` on integers with a positive divisor: the remainder of truncated division. It
      agrees with the Euclidean remainder on a non-negative dividend and otherwise takes
      the sign of the dividend. */
  function JsRem(a: int, b: int): (r: int)
    requires b > 0
    ensures a >= 0 ==> r == a % b
    ensures a < 0 ==> r == (if a % b == 0 then 0 else a % b - b)
    ensures a >= 0 ==> 0 <= r < b
    ensures a < 0 ==> -b < r <= 0
  {
    if a >= 0 then a % b else NegativeDividendRem(a, b); -((-a) % b)
  }

  /** For a negative dividend, truncated and Euclidean remainders differ by b unless
      b divides the dividend. */
  lemma NegativeDividendRem(a: int, b: int)
    requires b > 0 && a < 0
    ensures -((-a) % b) == (if a % b == 0 then 0 else a % b - b)
  {
    var q, m := a / b, a % b;
    if m == 0 {
      DivModUnique(-a, b, -q, 0);
    } else {
      DivModUnique(-a, b, -q - 1, b - m);
    }
  }

  /** Division with remainder is unique: x == b * q + r with 0 <= r < b fixes both
      x / b and x % b. */
  lemma DivModUnique(x: int, b: int, q: int, r: int)
    requires b > 0 && 0 <= r < b && x == b * q + r
    ensures x / b == q && x % b == r
  {
    var k := q - x / b;
    assert b * k == x % b - r;
    MultipleOutsideBand(b, k);
  }

  /** A non-zero multiple of b is at least b away from zero. */
  lemma MultipleOutsideBand(b: int, k: int)
    requires b > 0
    ensures k >= 1 ==> b * k >= b
    ensures k <= -1 ==> b * k <= -b
  {
    if k >= 1 {
      assert b * k == b * (k - 1) + b;
    } else if k <= -1 {
      assert b * k == b * (k + 1) - b;
    }
  }

  /** `%` on reals with a positive divisor (`fmod`): x minus the divisor times the
      quotient truncated toward zero, so the result takes the sign of x. */
  function FloatRem(x: real, m: real): (r: real)
    requires m > 0.0
    ensures x >= 0.0 ==> r >= 0.0
    ensures x < 0.0 ==> r <= 0.0
  {
    if x >= 0.0 then NonNegativeFloatRem(x, m); x - m * ((x / m).Floor as real)
    else NonNegativeFloatRem(-x, m); -((-x) - m * (((-x) / m).Floor as real))
  }

  /** Flooring a non-negative quotient never overshoots: the remainder is non-negative. */
  lemma NonNegativeFloatRem(x: real, m: real)
    requires m > 0.0 && x >= 0.0
    ensures 0.0 <= x - m * ((x / m).Floor as real)
  {
    var q := x / m;
    var f := q.Floor as real;
    ProductNonNegative(m, q - f);
    assert m * (q - f) == x - m * f;
  }

  /** A product of two non-negative reals is non-negative. */
  lemma ProductNonNegative(x: real, y: real)
    requires 0.0 <= x && 0.0 <= y
    ensures 0.0 <= x * y
  {
  }

  /** A square is non-negative. */
  lemma SquareNonNegative(x: real)
    ensures 0.0 <= x * x
  {
    if x < 0.0 {
      assert x * x == (-x) * (-x);
      ProductNonNegative(-x, -x);
    }
  }

  /** A product of two reals in [0, 1] is in [0, 1]. */
  lemma ProductOfFractions(a: real, b: real)
    requires 0.0 <= a <= 1.0 && 0.0 <= b <= 1.0
    ensures 0.0 <= a * b <= 1.0
  {
    ProductNonNegative(a, b);
    ProductNonNegative(1.0 - a, b);
    assert (1.0 - a) * b == b - a * b;
  }

  /** A product of two reals in [-1, 1] is in [-1, 1]. */
  lemma ProductOfUnits(x: real, y: real)
    requires -1.0 <= x <= 1.0 && -1.0 <= y <= 1.0
    ensures -1.0 <= x * y <= 1.0
  {
    ProductOfFractions(Abs(x), Abs(y));
    if x < 0.0 && y < 0.0 {
      assert x * y == (-x) * (-y);
    } else if x < 0.0 {
      assert x * y == -((-x) * y);
    } else if y < 0.0 {
      assert x * y == -(x * (-y));
    }
  }

  /** Scaling a value d in [0, 1) onto [lo, hi) lands inside it. */
  lemma ScaleInRange(lo: real, hi: real, d: real)
    requires lo < hi
    requires 0.0 <= d < 1.0
    ensures lo <= lo + d * (hi - lo) < hi
  {
    var w := hi - lo;
    ProductNonNegative(d, w);
    ProductNonNegative(1.0 - d, w);
    assert w - d * w == (1.0 - d) * w;
    assert (1.0 - d) * w != 0.0;
  }

  /** Row-major positions: with 0 <= c < cols, the flat index r * cols + c divides back
      into row r and column c. */
  lemma RowColumnOfIndex(r: int, c: int, cols: int)
    requires cols > 0 && 0 <= c < cols
    ensures (r * cols + c) / cols == r
    ensures (r * cols + c) % cols == c
  {
    DivModUnique(r * cols + c, cols, r, c);
  }

  /** The row after row r starts cols cells later. */
  lemma NextRowStart(r: int, cols: int)
    ensures (r + 1) * cols == r * cols + cols
  {
  }

  /** A row-major index of a cell inside a rows-by-cols grid is below rows * cols. */
  lemma IndexInGrid(r: int, c: int, rows: int, cols: int)
    requires 0 <= r < rows && 0 <= c < cols
    ensures 0 <= r * cols + c < rows * cols
  {
    MultipleOutsideBand(cols, rows - r);
    assert rows * cols == r * cols + (rows - r) * cols;
    assert 0 <= r * cols by {
      if r > 0 {
        MultipleOutsideBand(cols, r);
      }
    }
  }
}
