/** Exact real arithmetic standing in for the engine's float arithmetic:
    Python's `int()` on a float (truncation toward zero), `math.floor`, powers
    of two with an integer exponent, and the floored remainder of `%` and
    `divmod` on floats. */
module Reals {

  /** `int(x)`: the integer part, rounding toward zero. */
  function Trunc(x: real): int
  {
    if x >= 0.0 then x.Floor else -((-x).Floor)
  }

  /** The integer part lies within one unit of `x`, on the side of zero. */
  lemma TruncBounds(x: real)
    ensures x >= 0.0 ==> 0 <= Trunc(x) && Trunc(x) as real <= x < Trunc(x) as real + 1.0
    ensures x < 0.0 ==> Trunc(x) <= 0 && Trunc(x) as real - 1.0 < x <= Trunc(x) as real
  {
  }

  /** Truncation never moves away from zero. */
  lemma TruncTowardZero(x: real)
    ensures Abs(Trunc(x) as real) <= Abs(x)
    ensures Abs(x) < 1.0 ==> Trunc(x) == 0
  {
  }

  /** Above zero, truncation is the floor, so one more whole unit moves the
      result up by exactly one. */
  lemma TruncShift(x: real, k: int)
    requires x >= 0.0 && k >= 0
    ensures Trunc(x + k as real) == Trunc(x) + k
  {
    assert (x + k as real).Floor == x.Floor + k;
  }

  function Abs(x: real): (r: real)
    ensures r >= 0.0 && (r == x || r == -x)
  {
    if x < 0.0 then -x else x
  }

  /** `x % m` on floats: what is left after taking away the whole multiple
      of `m` given by the floor of `x / m`. The result takes the sign of the
      modulus, as Python's `%` and `divmod` do. */
  function FloorMod(x: real, m: real): (r: real)
    requires m != 0.0
    ensures m > 0.0 ==> 0.0 <= r < m
    ensures m < 0.0 ==> m < r <= 0.0
  {
    var q := (x / m).Floor;
    FloorRemainder(x, m);
    x - m * q as real
  }

  /** For a positive modulus, the whole multiple of `m` that `FloorMod`
      takes away is at most `x` and more than `x - m`. */
  lemma FloorBounds(x: real, m: real)
    requires m > 0.0
    ensures m * (x / m).Floor as real <= x < m * (x / m).Floor as real + m
  {
    FloorBelow(x, m);
    FloorAbove(x, m);
    Spread(x, m, (x / m).Floor as real);
  }

  /** The floor of the quotient, multiplied back, does not exceed `x`. */
  lemma FloorBelow(x: real, m: real)
    requires m > 0.0
    ensures m * (x / m).Floor as real <= x
  {
    var y := x / m;
    MulMono(m, y.Floor as real, y);
    assert m * y == x;
  }

  /** One more than the floor of the quotient, multiplied back, exceeds `x`. */
  lemma FloorAbove(x: real, m: real)
    requires m > 0.0
    ensures x < m * ((x / m).Floor as real + 1.0)
  {
    var y := x / m;
    MulStrict(m, y, y.Floor as real + 1.0);
    assert m * y == x;
  }

  lemma Spread(x: real, m: real, q: real)
    requires x < m * (q + 1.0)
    ensures x < m * q + m
  {
  }

  lemma MulMono(m: real, a: real, b: real)
    requires m > 0.0 && a <= b
    ensures m * a <= m * b
  {
  }

  lemma MulStrict(m: real, a: real, b: real)
    requires m > 0.0 && a < b
    ensures m * a < m * b
  {
  }

  /** Both signs of modulus: a negative one is the positive case mirrored,
      since `(-x) / (-m)` is `x / m`. */
  lemma FloorRemainder(x: real, m: real)
    requires m != 0.0
    ensures m > 0.0 ==> 0.0 <= x - m * (x / m).Floor as real < m
    ensures m < 0.0 ==> m < x - m * (x / m).Floor as real <= 0.0
  {
    if m > 0.0 {
      FloorBounds(x, m);
    } else {
      var q := (x / m).Floor as real;
      assert (-x) / (-m) == x / m;
      FloorBounds(-x, -m);
      assert (-m) * q <= -x < (-m) * q + (-m);
      assert (-m) * q == -(m * q);
    }
  }

  /** A quotient is the one value that multiplies back to the dividend. */
  lemma DivUnique(a: real, m: real, c: real)
    requires m != 0.0 && c * m == a
    ensures a / m == c
  {
    var d := a / m;
    assert d * m == a;
    assert (c - d) * m == 0.0;
  }

  lemma MulNonNegative(a: real, b: real)
    requires a > 0.0 && b >= 0.0
    ensures a * b >= 0.0
  {
  }

  lemma MulPositive(a: real, b: real)
    requires a > 0.0 && b > 0.0
    ensures a * b > 0.0
  {
  }

  /** `b` to the natural power `n`. */
  function Pow(b: real, n: nat): real
  {
    if n == 0 then 1.0 else b * Pow(b, n - 1)
  }

  /** Powers of a positive base are positive. */
  lemma {:induction false} PowPositive(b: real, n: nat)
    requires b > 0.0
    ensures Pow(b, n) > 0.0
  {
    if n > 0 {
      PowPositive(b, n - 1);
      MulPositive(b, Pow(b, n - 1));
    }
  }

  /** Powers multiply by adding exponents. */
  lemma {:induction false} PowAdd(b: real, m: nat, n: nat)
    ensures Pow(b, m + n) == Pow(b, m) * Pow(b, n)
  {
    if m > 0 {
      var x, y := Pow(b, m - 1), Pow(b, n);
      PowAdd(b, m - 1, n);
      Associate(b, x, y);
    }
  }

  /** `2 ** n` for a natural `n`, an integer. */
  function Exp2(n: nat): (r: nat)
    ensures r >= 1
  {
    if n == 0 then 1 else 2 * Exp2(n - 1)
  }

  lemma {:induction false} Exp2Add(m: nat, n: nat)
    ensures Exp2(m + n) == Exp2(m) * Exp2(n)
  {
    if m > 0 {
      Exp2Add(m - 1, n);
      assert Exp2(m + n) == 2 * Exp2(m - 1 + n);
    }
  }

  /** `2 ** n` for any integer `n`, as a float: negative exponents are
      fractions. */
  function Pow2(n: int): (r: real)
    ensures r > 0.0
  {
    if n >= 0 then Exp2(n) as real else 1.0 / Exp2(-n) as real
  }

  /** Non-negative powers of two multiply by adding exponents. */
  lemma Pow2Add(a: nat, b: nat)
    ensures Pow2(a + b) == Pow2(a) * Pow2(b)
  {
    var x, y, xy := Exp2(a), Exp2(b), Exp2(a + b);
    Exp2Add(a, b);
    RealProduct(x, y, xy);
    assert Pow2(a) == x as real && Pow2(b) == y as real && Pow2(a + b) == xy as real;
  }

  /** A negative power of two undoes the positive one. */
  lemma Pow2Inverse(n: int)
    ensures Pow2(n) * Pow2(-n) == 1.0
  {
    var e := if n >= 0 then Exp2(n) as real else Exp2(-n) as real;
    assert e * (1.0 / e) == 1.0;
  }

  lemma Associate(b: real, x: real, y: real)
    ensures b * (x * y) == (b * x) * y
  {
  }

  lemma RealProduct(x: int, y: int, xy: int)
    requires xy == x * y
    ensures xy as real == x as real * y as real
  {
  }
}
