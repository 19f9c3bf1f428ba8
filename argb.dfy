/**
 * 32-bit ARGB colours and the linear colour evaluator used to blend a colour
 * towards its dark variant.
 */
module Argb {

  type Byte = x: int | 0 <= x < 256

  /** An Android colour int, split into its alpha, red, green and blue bytes. */
  datatype Color = Color(a: Byte, r: Byte, g: Byte, b: Byte)

  const White: Color := Color(0xff, 0xff, 0xff, 0xff)

  /** Java's `(int)` cast of a float or double: rounds toward zero. */
  function Trunc(x: real): (n: int)
    ensures 0.0 <= x ==> 0 <= n && n as real <= x < n as real + 1.0
    ensures x < 0.0 ==> n <= 0 && n as real - 1.0 < x <= n as real
  {
    if x >= 0.0 then x.Floor else -((-x).Floor)
  }

  /** A fraction in [0, 1] of a distance is no longer than the distance. */
  lemma ScaleWithin(f: real, x: real)
    requires 0.0 <= f <= 1.0 && 0.0 <= x
    ensures 0.0 <= f * x <= x
  {
    assert 0.0 <= f * x;
    assert 0.0 <= (1.0 - f) * x == x - f * x;
  }

  /** The same for a negative distance. */
  lemma ScaleWithinNegative(f: real, x: real)
    requires 0.0 <= f <= 1.0 && x <= 0.0
    ensures x <= f * x <= 0.0
  {
    ScaleWithin(f, -x);
    assert f * -x == -(f * x);
  }

  /** Truncation keeps a value between 0 and an integer bound on the same side. */
  lemma TruncBetween(x: real, d: int)
    ensures 0.0 <= x <= d as real ==> 0 <= Trunc(x) <= d
    ensures d as real <= x <= 0.0 ==> d <= Trunc(x) <= 0
    ensures x == d as real ==> Trunc(x) == d
  {
  }

  lemma TruncScaledUp(f: real, d: int)
    requires 0.0 <= f <= 1.0 && 0 <= d
    ensures 0 <= Trunc(f * d as real) <= d
  {
    ScaleWithin(f, d as real);
    TruncBetween(f * d as real, d);
  }

  lemma TruncScaledDown(f: real, d: int)
    requires 0.0 <= f <= 1.0 && d <= 0
    ensures d <= Trunc(f * d as real) <= 0
  {
    ScaleWithinNegative(f, d as real);
    TruncBetween(f * d as real, d);
  }

  /** A fraction in [0, 1] of an integer distance truncates back into [0, d] (or [d, 0]). */
  lemma TruncScaled(f: real, d: int)
    requires 0.0 <= f <= 1.0
    ensures 0 <= d ==> 0 <= Trunc(f * d as real) <= d
    ensures d <= 0 ==> d <= Trunc(f * d as real) <= 0
    ensures f == 0.0 ==> Trunc(f * d as real) == 0
    ensures f == 1.0 ==> Trunc(f * d as real) == d
  {
    if 0 <= d {
      TruncScaledUp(f, d);
    }
    if d <= 0 {
      TruncScaledDown(f, d);
    }
    if f == 0.0 {
      TruncBetween(f * d as real, 0);
    }
    if f == 1.0 {
      TruncBetween(f * d as real, d);
    }
  }

  /**
   * One byte of the evaluator: `start + (int)(fraction * (end - start))`.
   * The result lies between the two endpoints and meets them at 0 and 1.
   */
  function LerpByte(f: real, s: Byte, e: Byte): (c: Byte)
    requires 0.0 <= f <= 1.0
    ensures s <= e ==> s <= c <= e
    ensures e <= s ==> e <= c <= s
    ensures f == 0.0 ==> c == s
    ensures f == 1.0 ==> c == e
  {
    var d: int := e - s;
    TruncScaled(f, d);
    s + Trunc(f * d as real)
  }

  /**
   * The framework's ARGB evaluator: each of the four bytes is interpolated
   * independently from `start` (fraction 0) to `end` (fraction 1).
   */
  function Evaluate(f: real, start: Color, end: Color): (c: Color)
    requires 0.0 <= f <= 1.0
    ensures f == 0.0 ==> c == start
    ensures f == 1.0 ==> c == end
    ensures start == end ==> c == start
    ensures start.a <= end.a ==> start.a <= c.a <= end.a
    ensures end.a <= start.a ==> end.a <= c.a <= start.a
    ensures start.r <= end.r ==> start.r <= c.r <= end.r
    ensures end.r <= start.r ==> end.r <= c.r <= start.r
    ensures start.g <= end.g ==> start.g <= c.g <= end.g
    ensures end.g <= start.g ==> end.g <= c.g <= start.g
    ensures start.b <= end.b ==> start.b <= c.b <= end.b
    ensures end.b <= start.b ==> end.b <= c.b <= start.b
  {
    Color(LerpByte(f, start.a, end.a), LerpByte(f, start.r, end.r),
          LerpByte(f, start.g, end.g), LerpByte(f, start.b, end.b))
  }
}
