/** Kotlin's numeric conversions, stated over Dafny's unbounded `int` and exact `real`.

    Kotlin `Float`/`Double` values are modelled as `real`; rounding of the IEEE formats is not
    modelled. `toInt()` truncates toward zero and saturates at the bounds of the 32-bit `Int`;
    `Int` division truncates toward zero; `coerceIn`/`coerceAtMost`/`coerceAtLeast` clamp. */
module Numeric {

  const IntMin: int := -0x8000_0000
  const IntMax: int := 0x7FFF_FFFF

  /** Truncation toward zero of an exact real. */
  function Trunc(x: real): (r: int)
    ensures 0.0 <= x ==> 0 <= r && r as real <= x < r as real + 1.0
    ensures x < 0.0 ==> r <= 0 && r as real - 1.0 < x <= r as real
  {
    if x >= 0.0 then x.Floor else -((-x).Floor)
  }

  /** Kotlin `Float.toInt()` / `Double.toInt()`: truncation toward zero, saturated to `Int`. */
  function ToInt(x: real): (r: int)
    ensures IntMin <= r <= IntMax
    ensures IntMin <= Trunc(x) <= IntMax ==> r == Trunc(x)
    ensures 0.0 <= x ==> 0 <= r
  {
    Clamp(Trunc(x), IntMin, IntMax)
  }

  /** Kotlin `Int / Int` for a positive divisor: the quotient truncated toward zero. */
  function TDiv(a: int, b: int): (q: int)
    requires b > 0
    ensures 0 <= a ==> 0 <= q && q * b <= a < q * b + b
    ensures a < 0 ==> q <= 0 && q * b - b < a <= q * b
  {
    if a >= 0 then a / b else -((-a) / b)
  }

  /** Kotlin `coerceIn(lo, hi)`. */
  function Clamp(x: int, lo: int, hi: int): (r: int)
    requires lo <= hi
    ensures lo <= r <= hi
    ensures lo <= x <= hi ==> r == x
    ensures x < lo ==> r == lo
    ensures hi < x ==> r == hi
  {
    if x < lo then lo else if x > hi then hi else x
  }

  /** Kotlin `coerceAtMost(hi)` on `Int`. */
  function AtMost(x: int, hi: int): (r: int)
    ensures r <= hi && r <= x
    ensures r == x || r == hi
  {
    if x > hi then hi else x
  }

  /** Kotlin `coerceAtLeast(lo)` on `Int`. */
  function AtLeast(x: int, lo: int): (r: int)
    ensures lo <= r && x <= r
    ensures r == x || r == lo
  {
    if x < lo then lo else x
  }

  /** Kotlin `coerceAtMost(hi)` on `Float`. */
  function RealAtMost(x: real, hi: real): (r: real)
    ensures r <= hi && r <= x
    ensures r == x || r == hi
  {
    if x > hi then hi else x
  }

  function Abs(x: real): (r: real)
    ensures 0.0 <= r
    ensures r == x || r == -x
  {
    if x < 0.0 then -x else x
  }

  /** `toInt()` never decreases when its argument grows. */
  lemma {:induction false} ToIntMonotone(x: real, y: real)
    requires x <= y
    ensures ToInt(x) <= ToInt(y)
  {
    assert Trunc(x) <= Trunc(y) by {
      if 0.0 <= x {
        assert x.Floor <= y.Floor;
      } else if y < 0.0 {
        assert (-y).Floor <= (-x).Floor;
      }
    }
  }

  lemma MulNonNegative(a: real, b: real)
    ensures 0.0 <= a && 0.0 <= b ==> 0.0 <= a * b
  {
  }

  /** Kotlin `(a * k).toInt()` for a whole `a` and a `Float` factor `k`. */
  function Scale(a: int, k: real): (r: int)
    ensures 0 <= a && 0.0 <= k ==> 0 <= r
  {
    MulNonNegative(a as real, k);
    ToInt(a as real * k)
  }

  /** Scaling by a non-negative factor keeps the order of whole numbers. */
  lemma {:induction false} ScaleMonotone(a: int, b: int, k: real)
    requires a <= b && 0.0 <= k
    ensures Scale(a, k) <= Scale(b, k)
  {
    assert a as real * k <= b as real * k by {
      assert b as real * k - a as real * k == (b - a) as real * k;
      MulNonNegative((b - a) as real, k);
    }
    ToIntMonotone(a as real * k, b as real * k);
  }

  /** Scaling a non-negative whole number never decreases when the factor grows. */
  lemma {:induction false} ScaleMonotoneInFactor(a: int, k1: real, k2: real)
    requires 0 <= a && k1 <= k2
    ensures Scale(a, k1) <= Scale(a, k2)
  {
    assert a as real * k1 <= a as real * k2 by {
      assert a as real * k2 - a as real * k1 == a as real * (k2 - k1);
      MulNonNegative(a as real, k2 - k1);
    }
    ToIntMonotone(a as real * k1, a as real * k2);
  }

  /** A whole number inside the `Int` range converts to itself. */
  lemma ToIntOfWhole(n: int)
    requires IntMin <= n <= IntMax
    ensures ToInt(n as real) == n
  {
  }

  /** `toInt()` is positive exactly when its argument is at least one. */
  lemma ToIntPositive(x: real)
    ensures ToInt(x) > 0 <==> x >= 1.0
  {
  }

  /** `toInt()` is negative exactly when its argument is at most minus one. */
  lemma ToIntNegative(x: real)
    ensures ToInt(x) < 0 <==> x <= -1.0
  {
  }

  /** Truncating division by a positive constant never decreases when the dividend grows. */
  lemma {:induction false} TDivMonotone(a: int, c: int, b: int)
    requires a <= c && b > 0
    ensures TDiv(a, b) <= TDiv(c, b)
  {
    if 0 <= a {
      DivMonotone(a, c, b);
    } else if c < 0 {
      DivMonotone(-c, -a, b);
    }
  }

  lemma {:induction false} DivMonotone(x: int, y: int, b: int)
    requires 0 <= x <= y && b > 0
    ensures x / b <= y / b
  {
    var qx, qy := x / b, y / b;
    assert qx * b <= x;
    assert y < qy * b + b;
    if qy < qx {
      MulMonotone(qy + 1, qx, b);
      assert false;
    }
  }

  lemma MulMonotone(m: int, n: int, b: int)
    requires m <= n && 0 <= b
    ensures m * b <= n * b
  {
    assert n * b - m * b == (n - m) * b;
  }
}
