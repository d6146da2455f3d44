/** The retry schedule shared by the step engine and the tool layer: at most
    `max_retries + 1` attempts, and before retry k (k >= 1) a wait of
    `base * factor^(k-1)` seconds. */
module Backoff {

  /** A non-negative span of time in seconds. */
  type Duration = r: real | r >= 0.0

  /** `range(max_retries + 1)`: the number of attempts a retry loop may make. */
  function AttemptBudget(max_retries: int): (n: nat)
    ensures max_retries >= 0 ==> n == max_retries + 1
    ensures max_retries < 0 ==> n == 0
  {
    if max_retries >= 0 then max_retries + 1 else 0
  }

  function Pow(b: real, n: nat): real {
    if n == 0 then 1.0 else b * Pow(b, n - 1)
  }

  /** The delay the source computes before retry k. */
  function Delay(base: real, factor: real, k: nat): real
    requires k >= 1
  {
    base * Pow(factor, k - 1)
  }

  /** Sum of the delays requested before retries 1..k. */
  function TotalDelay(base: real, factor: real, k: nat): real {
    if k == 0 then 0.0 else TotalDelay(base, factor, k - 1) + Delay(base, factor, k)
  }

  /** `asyncio.sleep(d)` with `d <= 0` returns at once. */
  function SleepTime(d: real): (t: real)
    ensures t >= 0.0
    ensures d >= 0.0 ==> t == d
  {
    if d > 0.0 then d else 0.0
  }

  lemma {:induction false} PowNonNegative(b: real, n: nat)
    requires b >= 0.0
    ensures Pow(b, n) >= 0.0
  {
    if n > 0 {
      PowNonNegative(b, n - 1);
    }
  }

  /** With a non-negative base and factor every requested delay is actually slept in full. */
  lemma DelayIsSlept(base: real, factor: real, k: nat)
    requires k >= 1 && base >= 0.0 && factor >= 0.0
    ensures SleepTime(Delay(base, factor, k)) == Delay(base, factor, k)
  {
    PowNonNegative(factor, k - 1);
  }

  /** Sum of factor^i for i < k. */
  function GeoSum(factor: real, k: nat): real {
    if k == 0 then 0.0 else GeoSum(factor, k - 1) + Pow(factor, k - 1)
  }

  /** Every requested total is the base times the sum of the powers of the factor. */
  lemma {:induction false} TotalIsScaled(base: real, factor: real, k: nat)
    ensures TotalDelay(base, factor, k) == base * GeoSum(factor, k)
  {
    if k > 0 {
      var g, p := GeoSum(factor, k - 1), Pow(factor, k - 1);
      assert TotalDelay(base, factor, k - 1) == base * g by {
        TotalIsScaled(base, factor, k - 1);
      }
      assert base * g + base * p == base * (g + p);
    }
  }

  /** Closed form of the sum of powers: (factor - 1) * sum == factor^k - 1. */
  lemma {:induction false} GeoSumClosed(factor: real, k: nat)
    ensures GeoSum(factor, k) * (factor - 1.0) == Pow(factor, k) - 1.0
  {
    if k > 0 {
      var g, p := GeoSum(factor, k - 1), Pow(factor, k - 1);
      assert g * (factor - 1.0) == p - 1.0 by {
        GeoSumClosed(factor, k - 1);
      }
      assert (g + p) * (factor - 1.0) == g * (factor - 1.0) + p * factor - p;
    }
  }

  /** Closed form of the total wait: (factor - 1) * total == base * (factor^k - 1). */
  lemma {:induction false} GeometricTotal(base: real, factor: real, k: nat)
    ensures TotalDelay(base, factor, k) * (factor - 1.0) == base * (Pow(factor, k) - 1.0)
  {
    TotalIsScaled(base, factor, k);
    GeoSumClosed(factor, k);
    Rescale(TotalDelay(base, factor, k), base, GeoSum(factor, k), factor - 1.0, Pow(factor, k) - 1.0);
  }

  /** Adding the next stretch of a running total: from `before` to `mid`, then on to `after`
      (no stretch when `n` is 0). */
  lemma Telescope(first: real, rest: real, before: real, mid: real, after: real, n: nat)
    requires first == mid - before
    requires n > 0 ==> rest == after - mid
    requires n == 0 ==> rest == 0.0 && after == mid
    ensures first + rest == after - before
  {
  }

  lemma Rescale(t: real, b: real, g: real, c: real, q: real)
    requires t == b * g && g * c == q
    ensures t * c == b * q
  {
  }

  /** With the doubling factor of the tool layer the total is `base * (2^k - 1)`. */
  lemma {:induction false} DoublingTotal(base: real, k: nat)
    ensures TotalDelay(base, 2.0, k) == base * (Pow(2.0, k) - 1.0)
  {
    GeometricTotal(base, 2.0, k);
  }

  /** With factor 1 the waits are all equal to the base. */
  lemma {:induction false} ConstantTotal(base: real, k: nat)
    ensures TotalDelay(base, 1.0, k) == k as real * base
  {
    if k > 0 {
      var n := (k - 1) as real;
      assert TotalDelay(base, 1.0, k - 1) == n * base by {
        ConstantTotal(base, k - 1);
      }
      assert Delay(base, 1.0, k) == base by {
        PowOne(k - 1);
      }
      assert k as real == n + 1.0;
      assert n * base + base == (n + 1.0) * base;
    }
  }

  lemma {:induction false} PowOne(n: nat)
    ensures Pow(1.0, n) == 1.0
  {
    if n > 0 {
      PowOne(n - 1);
    }
  }
}
