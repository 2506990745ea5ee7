/**
  Redial backoff shared by the stream and the QUIC reconcilers. Durations are whole
  nanoseconds.
*/
module Backoff {
  /** `u32::MAX` milliseconds. */
  const MAX_REDIAL_BACKOFF: nat := 0xFFFF_FFFF * 1_000_000
  /** The largest `Duration`. */
  const DURATION_MAX: nat := 0xFFFF_FFFF_FFFF_FFFF * 1_000_000_000 + 999_999_999

  /** The largest `Instant`: whole seconds in an `i64`. */
  const INSTANT_MAX: nat := 0x7FFF_FFFF_FFFF_FFFF * 1_000_000_000 + 999_999_999

  datatype Config = Config(base: nat, cap: nat)

  predicate Validated(c: Config) {
    && 0 < c.base && 0 < c.cap
    && c.base <= MAX_REDIAL_BACKOFF && c.cap <= MAX_REDIAL_BACKOFF && c.base <= c.cap
  }

  /** `nanos` is the wall-clock sample the jitter is drawn from. */
  function Jittered(delay: nat, nanos: nat): nat { delay + delay * (nanos % 256) / 1024 }

  function Doubled(c: Config, delay: nat): nat { if delay * 2 <= c.cap then delay * 2 else c.cap }

  function Pow2(k: nat): nat { if k == 0 then 1 else 2 * Pow2(k - 1) }

  /** The schedule both reconcilers are meant to follow: the k-th dial's unjittered wait. */
  function Law(c: Config, k: nat): nat { if c.base * Pow2(k) <= c.cap then c.base * Pow2(k) else c.cap }

  lemma LawDoubles(c: Config, k: nat)
    requires c.base <= c.cap
    ensures Law(c, 0) == c.base && Law(c, k + 1) == Doubled(c, Law(c, k))
  {
    assert c.base * Pow2(k + 1) == (c.base * Pow2(k)) * 2;
  }

  lemma {:induction false} LawBounds(c: Config, k: nat)
    requires Validated(c)
    ensures c.base <= Law(c, k) <= c.cap
    decreases k
  {
    LawDoubles(c, if k == 0 then 0 else k - 1);
    if k > 0 { LawBounds(c, k - 1); }
  }

  /** The jitter stays below a quarter of the delay. */
  lemma JitterIsBounded(delay: nat, nanos: nat)
    requires delay > 0
    ensures delay <= Jittered(delay, nanos) && 4 * (Jittered(delay, nanos) - delay) < delay
  {
    var n := nanos % 256;
    Scaled(delay, n, 255);
    assert delay * n / 1024 <= delay * 255 / 1024;
  }

  lemma Scaled(delay: nat, n: nat, m: nat)
    requires n <= m
    ensures delay * n <= delay * m
  {
    assert delay * m - delay * n == delay * (m - n);
  }

  lemma JitterAtMost(delay: nat, nanos: nat)
    ensures delay <= Jittered(delay, nanos) <= delay + delay * 255 / 1024
  {
    Scaled(delay, nanos % 256, 255);
  }

  /** Whatever the two samples, dial k + 1 waits strictly longer than dial k. */
  ghost predicate AlwaysLonger(c: Config, k: nat) { forall m: nat, n: nat :: Longer(c, k, m, n) }

  predicate Longer(c: Config, k: nat, m: nat, n: nat) { Jittered(Law(c, k), m) < Jittered(Law(c, k + 1), n) }

  /** That holds exactly when the next delay clears the largest jitter; the cap is what can prevent it. */
  lemma AlwaysLongerIff(c: Config, k: nat)
    requires Validated(c)
    ensures AlwaysLonger(c, k) <==> Law(c, k) + Law(c, k) * 255 / 1024 < Law(c, k + 1)
    ensures 2 * Law(c, k) <= c.cap ==> AlwaysLonger(c, k)
    ensures Law(c, k) == c.cap ==> !AlwaysLonger(c, k)
  {
    var d, e := Law(c, k), Law(c, k + 1);
    LawBounds(c, k);
    LawDoubles(c, k);
    assert Jittered(d, 255) == d + d * 255 / 1024 && Jittered(e, 0) == e;
    if d + d * 255 / 1024 < e {
      forall m: nat, n: nat
        ensures Longer(c, k, m, n)
      {
        JitterAtMost(d, m);
        JitterAtMost(e, n);
      }
    }
    assert AlwaysLonger(c, k) ==> Longer(c, k, 255, 0);
  }

  /**
    For a validated config no intermediate of the doubling or the jitter overflows a
    `Duration`, and the retry instant fits unless the clock is within two caps, about a
    hundred days, of its end.
  */
  lemma NothingOverflows(c: Config, k: nat, nanos: nat, now: nat)
    requires Validated(c)
    ensures now <= INSTANT_MAX - 2 * MAX_REDIAL_BACKOFF ==> now + Jittered(Law(c, k), nanos) <= INSTANT_MAX
    ensures Law(c, k) * 2 <= DURATION_MAX && Law(c, k) * (nanos % 256) <= DURATION_MAX
    ensures Jittered(Law(c, k), nanos) <= 2 * MAX_REDIAL_BACKOFF
  {
    LawBounds(c, k);
    Scaled(Law(c, k), nanos % 256, 255);
    JitterAtMost(Law(c, k), nanos);
  }
}
