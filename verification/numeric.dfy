/** JavaScript's `Math` helpers over exact reals (IEEE-754 rounding is not modelled). */
module Numeric {

  /** `Math.round`: the nearest integer, halves rounded towards +infinity. */
  function Round(x: real): (r: int)
    ensures x - 0.5 < r as real <= x + 0.5
  {
    (x + 0.5).Floor
  }

  /** `Math.ceil`: the least integer not below `x`. */
  function Ceil(x: real): (r: int)
    ensures x <= r as real < x + 1.0
  {
    var f := x.Floor;
    if f as real == x then f else f + 1
  }

  function Abs(x: real): (r: real)
    ensures r >= 0.0
    ensures r == x || r == -x
  {
    if x < 0.0 then -x else x
  }

  function Max(a: real, b: real): (r: real)
    ensures r >= a && r >= b
    ensures r == a || r == b
  {
    if a >= b then a else b
  }

  function Min(a: real, b: real): (r: real)
    ensures r <= a && r <= b
    ensures r == a || r == b
  {
    if a <= b then a else b
  }

  /** Rounding an integer gives it back. */
  lemma RoundOfInt(n: int)
    ensures Round(n as real) == n
  {
  }

  /** A value between two integers rounds to a value between them. */
  lemma RoundBetween(x: real, lo: int, hi: int)
    requires lo as real <= x <= hi as real
    ensures lo <= Round(x) <= hi
  {
  }

  /** Rounding a value between two bounds lands within half of them. */
  lemma RoundWithin(x: real, lo: real, hi: real)
    requires lo <= x <= hi
    ensures lo - 0.5 < Round(x) as real <= hi + 0.5
  {
  }

  /** Rounding is monotone. */
  lemma RoundMonotone(x: real, y: real)
    requires x <= y
    ensures Round(x) <= Round(y)
  {
  }

  /** Ceiling is monotone. */
  lemma CeilMonotone(x: real, y: real)
    requires x <= y
    ensures Ceil(x) <= Ceil(y)
  {
  }

  /** The ceiling of an integer is that integer. */
  lemma CeilOfInt(n: int)
    ensures Ceil(n as real) == n
  {
  }

  /** Dividing by a positive number keeps the order. */
  lemma QuotientMonotone(a: real, b: real, t: real)
    requires t > 0.0 && a <= b
    ensures a / t <= b / t
  {
    assert a / t * t == a && b / t * t == b;
  }

  /** A number at least `c` times a positive `t`, divided by `t`, is at least `c`. */
  lemma QuotientAtLeast(d: real, t: real, c: real)
    requires t > 0.0 && d >= c * t
    ensures d / t >= c
  {
    assert d / t * t == d;
  }

  /** Integer multiplication agrees with real multiplication. */
  lemma ProductAsReal(a: int, b: int)
    ensures (a * b) as real == a as real * b as real
  {
  }

  /** Values at least one apart round to different integers, in order. */
  lemma RoundApart(x: real, y: real)
    requires x >= y + 1.0
    ensures Round(x) > Round(y)
  {
    RoundMonotone(y + 1.0, x);
    assert Round(y + 1.0) == Round(y) + 1;
  }
}
