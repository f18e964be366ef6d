/**
 * Java's 32-bit `int`, its wrap-around, the `(int)` cast of a `double`
 * (truncation toward zero, saturating at the int bounds) and the
 * truncating integer `/` and `%`.  Doubles are modelled as `real`.
 */
module JavaNum {
  const MinInt32: int := -0x8000_0000
  const MaxInt32: int := 0x7FFF_FFFF
  const TwoTo32: int := 0x1_0000_0000

  type Int32 = x: int | -0x8000_0000 <= x <= 0x7FFF_FFFF

  /** Result of a Java `int` addition or subtraction whose exact value is `x`. */
  function Wrap32(x: int): (r: Int32)
    ensures MinInt32 <= x <= MaxInt32 ==> r == x
  {
    (x - MinInt32) % TwoTo32 + MinInt32
  }

  /** The wrapped result differs from the exact one by a multiple of 2^32. */
  lemma Wrap32Congruent(x: int)
    ensures (x - Wrap32(x)) % TwoTo32 == 0
  {
    var m := (x - MinInt32) % TwoTo32;
    assert x - (m + MinInt32) == ((x - MinInt32) / TwoTo32) * TwoTo32;
  }

  /** Truncation toward zero of a real. */
  function Trunc(r: real): (n: int)
    ensures 0.0 <= r ==> n as real <= r < n as real + 1.0
    ensures r < 0.0 ==> n as real - 1.0 < r <= n as real
  {
    if r >= 0.0 then r.Floor else -((-r).Floor)
  }

  /** Java's narrowing of an exact integer value held in a double to `int`. */
  function Saturate(n: int): (r: Int32)
    ensures MinInt32 <= n <= MaxInt32 ==> r == n
    ensures n < MinInt32 ==> r == MinInt32
    ensures n > MaxInt32 ==> r == MaxInt32
  {
    if n < MinInt32 then MinInt32 else if n > MaxInt32 then MaxInt32 else n
  }

  /** The Java cast `(int) d` of a (non-NaN, finite) double `d`. */
  function DoubleToInt(d: real): (r: Int32)
    ensures MinInt32 as real <= d < MaxInt32 as real + 1.0 ==> r == Trunc(d)
  {
    Saturate(Trunc(d))
  }

  /** Java's `a / b` on integers: the quotient truncated toward zero. */
  function JavaDiv(a: int, b: int): (q: int)
    requires b != 0
    ensures 0 <= a && 0 < b ==> q == a / b
  {
    var q := (if a < 0 then -a else a) / (if b < 0 then -b else b);
    if (a < 0) == (b < 0) then q else -q
  }

  /** Java's `a % b` on integers: the remainder takes the sign of `a`. */
  function JavaRem(a: int, b: int): (r: int)
    requires b != 0
    ensures JavaDiv(a, b) * b + r == a
    ensures 0 <= a ==> 0 <= r < (if b < 0 then -b else b)
    ensures a < 0 ==> -(if b < 0 then -b else b) < r <= 0
  {
    var r := (if a < 0 then -a else a) % (if b < 0 then -b else b);
    if a < 0 then -r else r
  }

  /** Dividing an int by a positive int cannot overflow. */
  lemma QuotientBound(a: Int32, ts: int)
    requires ts > 0
    ensures MinInt32 <= JavaDiv(a, ts) <= MaxInt32
  {
    var n: nat := if a < 0 then -(a as int) else a;
    DivAtMost(n, ts);
  }

  lemma DivAtMost(n: nat, d: int)
    requires d >= 1
    ensures 0 <= n / d <= n
  {
    var q := n / d;
    assert q * d + n % d == n;
    MulNonneg(q, d - 1);
    assert q * d == q * (d - 1) + q;
  }

  /** A truncating quotient by a positive divisor is no larger in magnitude than the dividend. */
  lemma JavaDivMagnitude(a: int, b: int)
    requires b >= 1
    ensures -(if a < 0 then -a else a) <= JavaDiv(a, b) <= (if a < 0 then -a else a)
  {
    var n: nat := if a < 0 then -a else a;
    DivAtMost(n, b);
  }

  lemma MulNonneg(x: nat, y: nat)
    ensures x * y >= 0
  {
  }
}
