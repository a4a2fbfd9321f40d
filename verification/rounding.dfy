/**
 * Decimal rounding of prices, as Python's `round(x, n)` does it: to the
 * nearest multiple of 10^-n, ties going to the even neighbour. The rounding
 * is applied to the exact real value (the binary floating-point
 * representation of the price is not modelled).
 */
module Rounding {

  /** 10^n */
  function Pow10(n: nat): (p: nat)
    ensures p >= 1
  {
    if n == 0 then 1 else 10 * Pow10(n - 1)
  }

  /** The number of grid steps per price unit when rounding to `digits` decimals. */
  function Scale(digits: nat): (s: real)
    ensures s >= 1.0
  {
    Pow10(digits) as real
  }

  /** True when `y` is a whole number. */
  predicate IsWhole(y: real) {
    y.Floor as real == y
  }

  /** True when `x` already has at most `digits` decimals. */
  predicate OnGrid(x: real, digits: nat) {
    IsWhole(x * Scale(digits))
  }

  /** Banker's rounding to an integer: the nearest integer, ties to even. */
  function RoundHalfEven(x: real): (n: int)
    ensures -0.5 <= n as real - x <= 0.5
    ensures n as real - x == 0.5 || x - n as real == 0.5 ==> n % 2 == 0
  {
    var f := x.Floor;
    var frac := x - f as real;
    if frac < 0.5 then f
    else if frac > 0.5 then f + 1
    else if f % 2 == 0 then f
    else f + 1
  }

  /** The two properties in the contract of `RoundHalfEven` determine its result. */
  lemma RoundHalfEvenUnique(x: real, m: int)
    requires -0.5 <= m as real - x <= 0.5
    requires m as real - x == 0.5 || x - m as real == 0.5 ==> m % 2 == 0
    ensures m == RoundHalfEven(x)
  {
    var n := RoundHalfEven(x);
    assert -1.0 <= m as real - n as real <= 1.0;
  }

  /** Rounding an integer-valued number leaves it unchanged. */
  lemma RoundHalfEvenWhole(y: real)
    requires IsWhole(y)
    ensures RoundHalfEven(y) as real == y
  {
    RoundHalfEvenUnique(y, y.Floor);
  }

  /** Banker's rounding commutes with negation (no bias towards either side). */
  lemma RoundHalfEvenOdd(x: real)
    ensures RoundHalfEven(-x) == -RoundHalfEven(x)
  {
    var n := RoundHalfEven(x);
    if n as real - x == 0.5 || x - n as real == 0.5 {
      assert n % 2 == 0;
      assert (-n) % 2 == 0;
    }
    RoundHalfEvenUnique(-x, -n);
  }

  /** Banker's rounding never reverses the order of two numbers. */
  lemma RoundHalfEvenMonotone(x: real, y: real)
    requires x <= y
    ensures RoundHalfEven(x) <= RoundHalfEven(y)
  {
    var a, b := RoundHalfEven(x), RoundHalfEven(y);
    assert a as real <= b as real + 1.0;
    assert a == b + 1 ==> x == y;
  }

  /** Dividing a rounded scaled value by the scale lands within half a step of `x`. */
  lemma ScaleBack(x: real, n: int, s: real)
    requires s >= 1.0
    requires -0.5 <= n as real - x * s <= 0.5
    ensures n as real / s * s == n as real
    ensures IsWhole(n as real / s * s)
    ensures -0.5 / s <= n as real / s - x <= 0.5 / s
  {
    var d := n as real / s - x;
    assert d * s == n as real - x * s;
    assert d * s / s == d;
  }

  /**
   * Python's `round(x, digits)`: the multiple of 10^-digits nearest to `x`,
   * ties to the even multiple.
   */
  function Round(x: real, digits: nat): (r: real)
    ensures OnGrid(r, digits)
    ensures -0.5 / Scale(digits) <= r - x <= 0.5 / Scale(digits)
  {
    ScaleBack(x, RoundHalfEven(x * Scale(digits)), Scale(digits));
    GridPoint(RoundHalfEven(x * Scale(digits)), digits);
    RoundHalfEven(x * Scale(digits)) as real / Scale(digits)
  }

  lemma GridPoint(n: int, digits: nat)
    ensures OnGrid(n as real / Scale(digits), digits)
  {
    ScaleBack(0.0, 0, Scale(digits));
    assert n as real / Scale(digits) * Scale(digits) == n as real;
  }

  lemma RoundUnfold(x: real, digits: nat)
    ensures Round(x, digits) == RoundHalfEven(x * Scale(digits)) as real / Scale(digits)
  {}

  /** A price that already has at most `digits` decimals is returned unchanged. */
  lemma RoundOnGrid(x: real, digits: nat)
    requires OnGrid(x, digits)
    ensures Round(x, digits) == x
  {
    RoundHalfEvenWhole(x * Scale(digits));
    MulDiv(x, Scale(digits));
  }

  lemma MulDiv(x: real, s: real)
    requires s >= 1.0
    ensures x * s / s == x
  {}

  /** round(-x, d) == -round(x, d). */
  lemma RoundOdd(x: real, digits: nat)
    ensures Round(-x, digits) == -Round(x, digits)
  {
    NegMul(x, Scale(digits));
    RoundHalfEvenOdd(x * Scale(digits));
    NegDiv(RoundHalfEven(x * Scale(digits)), Scale(digits));
  }

  lemma NegDiv(n: int, s: real)
    requires s >= 1.0
    ensures (-n) as real / s == -(n as real / s)
  {}

  lemma NegMul(x: real, s: real)
    ensures -x * s == -(x * s)
  {}

  /** Rounding preserves the (non-strict) order of prices. */
  lemma RoundMonotone(x: real, y: real, digits: nat)
    requires x <= y
    ensures Round(x, digits) <= Round(y, digits)
  {
    MulMonotone(x, y, Scale(digits));
    RoundHalfEvenMonotone(x * Scale(digits), y * Scale(digits));
    DivMonotone(RoundHalfEven(x * Scale(digits)) as real, RoundHalfEven(y * Scale(digits)) as real, Scale(digits));
    RoundUnfold(x, digits);
    RoundUnfold(y, digits);
  }

  lemma MulMonotone(x: real, y: real, s: real)
    requires x <= y && s >= 1.0
    ensures x * s <= y * s
  {}

  lemma DivMonotone(a: real, b: real, s: real)
    requires a <= b && s >= 1.0
    ensures a / s <= b / s
  {}

  /** Sums and differences of grid prices stay on the grid. */
  lemma OnGridAdd(x: real, y: real, digits: nat)
    requires OnGrid(x, digits) && OnGrid(y, digits)
    ensures OnGrid(x + y, digits) && OnGrid(x - y, digits)
  {
    Distribute(x, y, Scale(digits));
    WholeAdd(x * Scale(digits), y * Scale(digits));
  }

  /** Sums and differences of whole numbers are whole. */
  lemma WholeAdd(p: real, q: real)
    requires IsWhole(p) && IsWhole(q)
    ensures IsWhole(p + q) && IsWhole(p - q)
  {
    var m, n := p.Floor, q.Floor;
    assert p + q == (m + n) as real && ((m + n) as real).Floor == m + n;
    assert p - q == (m - n) as real && ((m - n) as real).Floor == m - n;
  }

  lemma Distribute(x: real, y: real, s: real)
    ensures (x + y) * s == x * s + y * s
    ensures (x - y) * s == x * s - y * s
  {}
}
