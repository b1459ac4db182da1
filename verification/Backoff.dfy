/** Exponential restart backoff under 64-bit wrap-around (manager/restart.go). */
module Backoff {

  const TWO63: int := 0x8000_0000_0000_0000

  type Int64 = n: int | -TWO63 <= n < TWO63

  /** A configured delay in nanoseconds. */
  type Duration = n: int | 0 < n < TWO63 witness 1

  /** Two's-complement doubling of a 64-bit value. */
  function WrapDouble(d: Int64): Int64 {
    (2 * d + TWO63) % (2 * TWO63) - TWO63
  }

  function Pow2(n: nat): (p: nat)
    ensures p > 0
  {
    if n == 0 then 1 else 2 * Pow2(n - 1)
  }

  /** The documented schedule over unbounded integers: base * 2^(n-1), capped at `max`. */
  function Schedule(base: int, max: int, restartCount: int): (d: int)
    ensures 0 < base && 0 < max ==> 0 < d <= max
  {
    var exponent := if restartCount <= 1 then 0 else restartCount - 1;
    var d := base * Pow2(exponent);
    if d > max then max else d
  }

  /** restartBackoff: wrap-around never leaks into the result. */
  method RestartBackoff(base: Int64, max: Int64, restartCount: int) returns (d: Int64)
    requires 0 < base && 0 < max
    ensures d == Schedule(base, max, restartCount)
  {
    d := base;
    var i := 1;
    while i < restartCount && d < max
      invariant 1 <= i && (i <= restartCount || i == 1)
      invariant d == base * Pow2(i - 1)
    {
      ghost var before := d;
      d := WrapDouble(d);
      if d < 0 {
        Doubled(base, i, restartCount);
        assert 2 * before >= TWO63;
        return max;
      }
      assert d == 2 * before;
      i := i + 1;
    }
    if d > max {
      Doubled(base, i, restartCount);
      return max;
    }
    if i < restartCount { Doubled(base, i, restartCount); }
    return d;
  }

  /** Once the doubled value has reached some bound, later exponents only exceed it. */
  lemma {:induction false} Doubled(base: int, i: int, n: int)
    requires 0 < base && 1 <= i
    ensures i <= n ==> base * Pow2(n - 1) >= base * Pow2(i - 1)
    ensures i < n ==> base * Pow2(n - 1) >= 2 * (base * Pow2(i - 1))
    decreases n - i
  {
    if i < n {
      Doubled(base, i + 1, n);
      assert Pow2(i) == 2 * Pow2(i - 1);
      assert base * Pow2(i) == 2 * (base * Pow2(i - 1));
    }
  }

  /** The delay is positive, never above the cap, and never shrinks as restarts accumulate. */
  lemma ScheduleBounds(base: int, max: int, m: int, n: int)
    requires 0 < base && 0 < max && m <= n
    ensures 0 < Schedule(base, max, n) <= max
    ensures Schedule(base, max, m) <= Schedule(base, max, n)
  {
    if n > 1 {
      Doubled(base, if m <= 1 then 1 else m, n);
    }
  }
}
