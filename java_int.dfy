/** Java's 32-bit `int`: its range, two's-complement wrap-around, saturation,
    and division and remainder that truncate toward zero. */
module JavaInt {

  const IntMin: int := -0x8000_0000   // Integer.MIN_VALUE
  const IntMax: int := 0x7fff_ffff    // Integer.MAX_VALUE
  const TwoTo32: int := 0x1_0000_0000

  predicate InRange(x: int) { IntMin <= x <= IntMax }

  /** The values a Java `int` can hold. */
  type Int32 = x: int | -0x8000_0000 <= x <= 0x7fff_ffff

  function Abs(x: int): nat { if x < 0 then -x else x }

  /** The reference saturation: the nearest `int` to `x`. */
  function Clamp(x: int): Int32
  {
    if x < IntMin then IntMin else if x > IntMax then IntMax else x
  }

  /** What Java's `int` arithmetic leaves of the exact value `x`: the unique
      `int` congruent to `x` modulo 2^32. */
  function Wrap(x: int): (r: Int32)
    ensures InRange(x) ==> r == x
    ensures (x - r) % TwoTo32 == 0
    ensures IntMax < x <= IntMax + TwoTo32 ==> r == x - TwoTo32
    ensures IntMin - TwoTo32 <= x < IntMin ==> r == x + TwoTo32
  {
    var y := x - IntMin;
    ModSplit(y);
    y % TwoTo32 + IntMin
  }

  /** Facts about `y % 2^32` used by `Wrap`: it is `y` shifted by a multiple
      of 2^32, and near 0 it is `y` itself or `y` moved by one 2^32. */
  lemma ModSplit(y: int)
    ensures (y - y % TwoTo32) % TwoTo32 == 0
    ensures 0 <= y < TwoTo32 ==> y % TwoTo32 == y
    ensures TwoTo32 <= y < 2 * TwoTo32 ==> y % TwoTo32 == y - TwoTo32
    ensures -TwoTo32 <= y < 0 ==> y % TwoTo32 == y + TwoTo32
  {
  }

  lemma DivBounds(y: int, m: int, q: int)
    requires m > 0 && q == y / m
    ensures q * m <= y < q * m + m
  {
    assert y == q * m + y % m;
  }

  /** Java's `b / a` before overflow is considered: the quotient truncated
      toward zero (section 15.17.2 of the Java Language Specification). */
  function TruncDiv(b: int, a: int): (q: int)
    requires a != 0
    ensures Abs(q) * Abs(a) <= Abs(b) < Abs(q) * Abs(a) + Abs(a)
    ensures q != 0 ==> (q > 0 <==> (b > 0) == (a > 0))
  {
    var m := Abs(b) / Abs(a);
    DivBounds(Abs(b), Abs(a), m);
    if (b < 0) == (a < 0) then m else -m
  }

  /** Java's `b % a`: the remainder of truncated division, which takes the
      sign of the dividend `b` (section 15.17.3 of the Java Language
      Specification). */
  function TruncRem(b: int, a: int): (r: int)
    requires a != 0
    ensures b == TruncDiv(b, a) * a + r
    ensures Abs(r) < Abs(a)
    ensures r != 0 ==> (r > 0 <==> b > 0)
  {
    var m := Abs(b) / Abs(a);
    DivBounds(Abs(b), Abs(a), m);
    var q := TruncDiv(b, a);
    assert Abs(q) == m;
    if b < 0 then -(Abs(b) - m * Abs(a)) else Abs(b) - m * Abs(a)
  }

  /** The exact integer power `b^e`. */
  function IntPow(b: int, e: nat): int
  {
    if e == 0 then 1 else b * IntPow(b, e - 1)
  }
}
