/** Small building blocks shared by the cube model: an optional value for
    JavaScript's `undefined`, sums of integer sequences, and JavaScript's
    remainder operator `%`, which truncates toward zero. */
module Basics {

  datatype Option<T> = None | Some(value: T)

  /** The sum of a sequence of integers. */
  function Sum(s: seq<int>): int
  {
    if s == [] then 0 else s[0] + Sum(s[1..])
  }

  /** Overwriting one entry changes the sum by the difference. */
  lemma {:induction false} SumUpdate(s: seq<int>, i: int, v: int)
    requires 0 <= i < |s|
    ensures Sum(s[i := v]) == Sum(s) - s[i] + v
  {
    if i == 0 {
      assert s[i := v][1..] == s[1..];
    } else {
      assert s[i := v][1..] == s[1..][i - 1 := v];
      SumUpdate(s[1..], i - 1, v);
    }
  }

  /** A product of a positive factor and a factor of at least one is at
      least the positive factor. */
  lemma MulAtLeast(m: int, d: int)
    requires m >= 1 && d > 0
    ensures m * d >= d
  {
    assert m * d == (m - 1) * d + d;
    assert (m - 1) * d >= 0;
  }

  /** The Euclidean remainder is determined by any quotient-remainder pair. */
  lemma ModUnique(y: int, a: int, r: int, d: int)
    requires d > 0 && 0 <= r < d && y == a * d + r
    ensures y % d == r
  {
    var k, s := y / d, y % d;
    assert y == k * d + s;
    if a > k {
      MulAtLeast(a - k, d);
    } else if a < k {
      MulAtLeast(k - a, d);
    }
  }

  /** Adding a multiple of `d` does not change the Euclidean remainder. */
  lemma ModShift(x: int, q: int, d: int)
    requires d > 0
    ensures (x + q * d) % d == x % d
  {
    var k := x / d;
    assert x == k * d + x % d;
    assert x + q * d == (k + q) * d + x % d;
    ModUnique(x + q * d, k + q, x % d, d);
  }

  /** Numbers that differ by a multiple of `d` leave the same remainder. */
  lemma SameRemainder(a: int, b: int, q: int, d: int)
    requires d > 0 && a == b - q * d
    ensures a % d == b % d
  {
    ModShift(b, -q, d);
  }

  /** The quotient of JavaScript's truncating division. */
  function TruncDiv(n: int, d: int): int
    requires d > 0
  {
    if n >= 0 then n / d else -((-n) / d)
  }

  /** JavaScript's `n % d` for `d > 0`: the remainder of truncating
      division, which has the sign of `n`. */
  function Rem(n: int, d: int): (r: int)
    requires d > 0
    ensures 0 <= n ==> 0 <= r < d
    ensures n < 0 ==> -d < r <= 0
  {
    if n >= 0 then n % d else -((-n) % d)
  }

  /** `Rem` is the remainder of truncating division, and it is congruent to
      `n` modulo `d`. */
  lemma RemIsRemainder(n: int, d: int)
    requires d > 0
    ensures n == TruncDiv(n, d) * d + Rem(n, d)
    ensures Rem(n, d) % d == n % d
  {
    ModShift(Rem(n, d), TruncDiv(n, d), d);
  }
}
