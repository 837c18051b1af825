/** Fixed-width and nonlinear arithmetic, and the units of time. */
module Arithmetic {

  const TICKS_PER_SECOND: nat := 10_000_000
  const TICKS_PER_MS: nat := 10_000

  /** Unsigned 64-bit arithmetic wraps around. */
  function Wrap64(x: int): (w: nat)
    ensures 0 <= x < 0x1_0000_0000_0000_0000 ==> w == x
  {
    x % 0x1_0000_0000_0000_0000
  }

  lemma WrapAdd(x: int, y: int)
    ensures Wrap64(Wrap64(x) + y) == Wrap64(x + y)
  {
  }

  lemma WrapSub(x: int, y: int)
    ensures Wrap64(Wrap64(x) - y) == Wrap64(x - y)
  {
  }

  lemma {:induction false} FewerTimes(m: nat, n: nat, d: nat)
    requires m <= n
    ensures m * d <= n * d
    decreases n
  {
    if m < n {
      FewerTimes(m, n - 1, d);
      assert n * d == (n - 1) * d + d;
    }
  }

  lemma StepsApart(d: nat, a: nat, b: nat)
    ensures a < b ==> a * d + d <= b * d
  {
    if a < b {
      FewerTimes(a + 1, b, d);
      assert (a + 1) * d == a * d + d;
    }
  }

  lemma QuotientAtLeast(k: nat, d: nat, x: nat)
    requires d > 0 && k * d <= x
    ensures k <= x / d
  {
    StepsApart(d, x / d, k);
  }

  lemma DividesBound(n: nat, d: nat, limit: nat)
    requires 0 < d && n * d < limit + d && limit % d == 0
    ensures n * d <= limit
  {
    var q := limit / d;
    StepsApart(d, q, n);
    if n <= q {
      FewerTimes(n, q, d);
    }
  }

  lemma RemainderUnique(i: nat, n: nat, q: nat, r: nat)
    requires n > 0 && r < n && i == n * q + r
    ensures i % n == r
  {
    var q', r' := i / n, i % n;
    assert i == q' * n + r';
    StepsApart(n, q, q');
    StepsApart(n, q', q);
  }

  /** One divisor less leaves the same remainder. */
  lemma RemainderBack(i: nat, n: nat)
    requires 0 < n <= i
    ensures (i - n) % n == i % n
  {
    var q, r := (i - n) / n, (i - n) % n;
    OneTimeMore(n, q);
    RemainderUnique(i, n, q + 1, r);
  }

  lemma OneTimeMore(n: nat, q: nat)
    ensures n * (q + 1) == n * q + n
  {
  }
}
