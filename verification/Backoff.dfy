/** Exponential retry delays with up to a fifth of jitter. */
module Backoff {

  function Pow2(n: nat): (p: nat)
    ensures p >= 1
  {
    if n == 0 then 1 else 2 * Pow2(n - 1)
  }

  /** `base * 2 ** Math.max(0, attempt - 1)`. */
  function Exponential(base: nat, attempt: nat): nat {
    base * Pow2(if attempt >= 1 then attempt - 1 else 0)
  }

  /** `Math.max(1, exponential * 0.2)`. */
  function Spread(e: nat): (x: real)
    ensures x >= 1.0
  {
    if e as real * 0.2 > 1.0 then e as real * 0.2 else 1.0
  }

  lemma Scaled(r: real, x: real)
    requires 0.0 <= r < 1.0 && x > 0.0
    ensures 0.0 <= r * x < x
  {
  }

  /** `Math.floor(r * spread)` for a random `r` in [0, 1). */
  function Jitter(r: real, spread: real): (j: int)
    requires 0.0 <= r < 1.0 && spread > 0.0
    ensures 0 <= j && j as real < spread
  {
    Scaled(r, spread);
    (r * spread).Floor
  }

  /** The exponential delay plus `Math.floor(r * Math.max(1, exponential * 0.2))`. */
  function RetryDelay(base: nat, attempt: nat, r: real): (d: int)
    requires 0.0 <= r < 1.0
    ensures d >= Exponential(base, attempt)
  {
    var e := Exponential(base, attempt);
    e + Jitter(r, Spread(e))
  }

  /** The jitter adds at most a fifth, and nothing when a fifth is under a millisecond. */
  lemma DelayBounds(base: nat, attempt: nat, r: real)
    requires 0.0 <= r < 1.0
    ensures var e, d := Exponential(base, attempt), RetryDelay(base, attempt, r);
      e <= d && 5 * d <= 6 * e && (e <= 5 ==> d == e)
  {
  }

  /** The jitter is the whole part of `r` times a fifth of the exponential delay, or times one if that is less. */
  lemma DelayIsFloored(base: nat, attempt: nat, r: real)
    requires 0.0 <= r < 1.0
    ensures var e, d := Exponential(base, attempt), RetryDelay(base, attempt, r);
      var spread := if e > 5 then e as real / 5.0 else 1.0;
      d as real <= e as real + r * spread < (d + 1) as real
  {
    assert Exponential(base, attempt) as real * 0.2 == Exponential(base, attempt) as real / 5.0;
  }

  /** The sum of the delays after attempts 1 to n - 1, what an n-attempt job waits in all. */
  function DelaySum(base: nat, n: nat, jitter: nat -> real): int
    requires forall a: nat :: 0.0 <= jitter(a) < 1.0
  {
    if n <= 1 then 0 else DelaySum(base, n - 1, jitter) + RetryDelay(base, n - 1, jitter(n - 1))
  }

  /** Whatever the jitter, each delay is longer than the one before. */
  lemma DelaysIncrease(base: nat, attempt: nat, r: real, r': real)
    requires base >= 1 && attempt >= 1 && 0.0 <= r < 1.0 && 0.0 <= r' < 1.0
    ensures RetryDelay(base, attempt, r) < RetryDelay(base, attempt + 1, r')
  {
  }

  lemma Doubled(a: nat, b: nat)
    ensures a * (2 * b) == 2 * (a * b)
  {
  }

  /** The whole wait of an n-attempt job lies between `base * (2^(n-1) - 1)` and six fifths of it. */
  lemma {:induction false} DelaySumBounds(base: nat, n: nat, jitter: nat -> real)
    requires n >= 1 && forall a: nat :: 0.0 <= jitter(a) < 1.0
    ensures var least := base * (Pow2(n - 1) - 1);
      least <= DelaySum(base, n, jitter) && 5 * DelaySum(base, n, jitter) <= 6 * least
  {
    if n > 1 {
      DelaySumBounds(base, n - 1, jitter);
      DelayBounds(base, n - 1, jitter(n - 1));
      Step(base, Pow2(n - 2));
    }
  }

  lemma Step(base: nat, p: nat)
    ensures base * (2 * p - 1) == base * (p - 1) + base * p
  {
  }
}
