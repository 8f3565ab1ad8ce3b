/**
 * Heading arithmetic.
 *
 * Every value the simulation writes to a robot's heading is a whole number of
 * degrees (a random draw below 360, 0, a turn of 90, 67 or 180, or a negation),
 * so headings are modelled as `int`. Java's `%` is the remainder of a
 * truncating division: it keeps the sign of the dividend, unlike Dafny's
 * Euclidean `%`. `JRem` is that operator.
 */
module Angles {

  /** Euclidean division is unique: a quotient and an in-range remainder determine `%`. */
  lemma ModUnique(a: int, n: int, q: int, r: int)
    requires n > 0 && 0 <= r < n && a == n * q + r
    ensures a % n == r
  {
    var d := q - a / n;
    assert n * d == a % n - r;
  }

  /**
   * Java's `a % n` for a positive divisor `n`: congruent to `a`, with the sign
   * of `a`, so it differs from the Euclidean remainder by `n` exactly when `a`
   * is negative and not a multiple of `n`.
   */
  function JRem(a: int, n: int): (r: int)
    requires n > 0
    ensures a >= 0 ==> r == a % n && 0 <= r < n
    ensures a < 0 ==> -n < r <= 0
    ensures r == a % n || r == a % n - n
  {
    if a >= 0 then a % n
    else
      var q, m := (-a) / n, (-a) % n;
      assert a == n * (-q) - m;
      if m == 0 then
        ModUnique(a, n, -q, 0); 0
      else
        ModUnique(a, n, -q - 1, n - m); -m
  }

  /** The reversal applied by a collision: `(d + 180) % 360` in Java. */
  function Reverse(d: int): (r: int)
    ensures 0 <= d < 360 ==> r == (d + 180) % 360 && 0 <= r < 360
    ensures 0 <= d < 180 ==> r == d + 180
    ensures 180 <= d < 360 ==> r == d - 180
  {
    JRem(d + 180, 360)
  }

  /** `k` reversals in a row. */
  function ReverseTimes(d: int, k: nat): int
    decreases k
  {
    if k == 0 then d else ReverseTimes(Reverse(d), k - 1)
  }

  /** Two reversals return a heading in [0, 360) to where it was. */
  lemma ReverseTwice(d: int)
    requires 0 <= d < 360
    ensures Reverse(Reverse(d)) == d
  {
  }

  /** Only the parity of the number of reversals matters. */
  lemma {:induction false} ReverseTimesParity(d: int, k: nat)
    requires 0 <= d < 360
    ensures ReverseTimes(d, k) == if k % 2 == 0 then d else Reverse(d)
    decreases k
  {
    if k > 0 {
      ReverseTimesParity(Reverse(d), k - 1);
      ReverseTwice(d);
      assert (k - 1) % 2 == 0 <==> k % 2 == 1;
    }
  }

  /** Adding a non-negative amount after a reduction is the same as adding it before. */
  lemma ModAddAfter(a: int, b: int)
    requires a >= 0 && b >= 0
    ensures (a % 360 + b) % 360 == (a + b) % 360
  {
  }
}
