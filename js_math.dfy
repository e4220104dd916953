/**
 * The JavaScript number operations the core relies on, on integral values.
 * Dafny's `/` and `%` are Euclidean; with a positive divisor `/` is floor
 * division, which is `Math.floor(a / b)`. JavaScript's `%` truncates, so it is
 * written out here.
 */
module JsMath {

  function Abs(x: int): nat { if x < 0 then -x else x }

  /**
   * JavaScript's `a % b`: the remainder of division truncated toward zero,
   * that is, what `a` exceeds a multiple of `b` by, smaller than `b` in size
   * and zero or of the sign of `a`.
   */
  function Rem(a: int, b: int): (r: int)
    requires b != 0
    ensures (a - r) % b == 0
    ensures Abs(r) < Abs(b)
    ensures r == 0 || (r < 0 <==> a < 0)
    ensures a >= 0 ==> r == a % b
    ensures a < 0 ==> -r == (-a) % b
  {
    if a >= 0 then
      MultipleHasNoRemainder(a / b, b);
      assert a - a % b == (a / b) * b;
      a % b
    else
      MultipleHasNoRemainder(-((-a) / b), b);
      assert a + (-a) % b == -((-a) / b) * b;
      -((-a) % b)
  }

  /** A multiple of `b` leaves no remainder: the Euclidean remainder is unique. */
  lemma MultipleHasNoRemainder(q: int, b: int)
    requires b != 0
    ensures (q * b) % b == 0
  {
    var d := q - (q * b) / b;
    assert d * b == q * b - ((q * b) / b) * b;
    assert 0 <= d * b < Abs(b);
    if d >= 1 && b > 0 {
      AtLeastOnce(d, b);
    } else if d >= 1 {
      AtLeastOnce(d, -b);
    } else if d <= -1 && b > 0 {
      AtLeastOnce(-d, b);
    } else if d <= -1 {
      AtLeastOnce(-d, -b);
    }
  }

  /** A positive number taken one or more times is at least itself. */
  lemma AtLeastOnce(d: int, n: int)
    requires d >= 1 && n > 0
    ensures d * n >= n
  {
    assert d * n == (d - 1) * n + n;
  }

  /** Milliseconds in a minute (`1000 * 60`). */
  const MsPerMinute: int := 60000

  /**
   * `Math.round(ms / 60000)`: the whole number of minutes nearest to `ms`
   * milliseconds, a half minute rounding up.
   */
  function RoundMinutes(ms: int): (r: int)
    ensures r * MsPerMinute - MsPerMinute / 2 <= ms < r * MsPerMinute + MsPerMinute / 2
  {
    (ms + MsPerMinute / 2) / MsPerMinute
  }
}
