/** Integer conversions shared by the desktop and the Android controller. */
module Numeric {

  /** Conversion of a real to an integer by truncation toward zero, as C++
      `static_cast<int>` and Kotlin `Float.toInt()` do for values in range. */
  function Trunc(r: real): (n: int)
    ensures r >= 0.0 ==> 0 <= n && n as real <= r < n as real + 1.0
    ensures r < 0.0 ==> n <= 0 && n as real - 1.0 < r <= n as real
  {
    if r >= 0.0 then r.Floor else -((-r).Floor)
  }

  /** Quotient bounds of Dafny's division for a non-negative dividend. */
  lemma QuotientBounds(a: int, b: int)
    requires a >= 0 && b > 0
    ensures 0 <= a / b && (a / b) * b <= a < (a / b) * b + b
  {
    assert a == (a / b) * b + a % b;
  }

  /** C++ integer division, which truncates toward zero (Dafny's `/` is Euclidean). */
  function DivTrunc(a: int, b: int): (q: int)
    requires b > 0
    ensures a >= 0 ==> 0 <= q && q * b <= a < q * b + b
    ensures a < 0 ==> q <= 0 && q * b - b < a <= q * b
  {
    if a >= 0 then
      QuotientBounds(a, b);
      a / b
    else
      QuotientBounds(-a, b);
      assert -((-a) / b) * b == -(((-a) / b) * b);
      -((-a) / b)
  }

  /** `static_cast<int>(n * f)` for a whole number `n` and a factor `f` of
      `tenths` tenths, computed on integers. */
  function ScaleTenths(n: int, tenths: nat): int {
    DivTrunc(n * tenths, 10)
  }

  /** The integer computation is the truncation of the exact real product. */
  lemma ScaleTenthsIsTrunc(n: int, tenths: nat)
    ensures ScaleTenths(n, tenths) == Trunc(n as real * (tenths as real / 10.0))
  {
    var m := n * tenths;
    var r := n as real * (tenths as real / 10.0);
    assert r == m as real / 10.0;
    var q := DivTrunc(m, 10);
    if m >= 0 {
      assert q as real <= r < q as real + 1.0;
    } else {
      assert q as real - 1.0 < r <= q as real;
    }
  }

  /** Scaling by a non-negative factor keeps the order of its argument. */
  lemma ScaleTenthsMonotone(a: int, b: int, tenths: nat)
    requires a <= b
    ensures ScaleTenths(a, tenths) <= ScaleTenths(b, tenths)
  {
    var x, y := a * tenths, b * tenths;
    assert x <= y by {
      assert y - x == (b - a) * tenths;
    }
  }
}
