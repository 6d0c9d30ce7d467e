/** Exponential back-off of a failed send (django_celery_outbox/relay/_mutations.py). */
module Backoff {
  import opened Types

  function Pow2(n: nat): (p: nat)
    ensures p > n
  {
    if n == 0 then 1 else 2 * Pow2(n - 1)
  }

  /** The values `random.uniform(0, backoff_time * 0.1)` can return. */
  predicate IsJitter(cfg: Config, jitter: real) {
    0.0 <= jitter <= cfg.backoffTime as real / 10.0
  }

  function RawDelay(cfg: Config, retries: nat, jitter: real): real {
    (cfg.backoffTime * Pow2(retries)) as real + jitter
  }

  function Delay(cfg: Config, retries: nat, jitter: real): real {
    var raw := RawDelay(cfg, retries, jitter);
    if raw <= cfg.maxBackoff then raw else cfg.maxBackoff
  }

  /** One failure more doubles the power, and none is one. */
  lemma PowersOfTwo(n: nat)
    ensures Pow2(0) == 1 && Pow2(n + 1) == Pow2(n) + Pow2(n)
  {
  }

  /** The delay after `retries` failures before: the back-off time doubled that often, plus the
      jitter, but no more than the cap. */
  lemma DelayIs(cfg: Config, retries: nat, jitter: real)
    ensures var raw := (cfg.backoffTime * Pow2(retries)) as real + jitter;
            Delay(cfg, retries, jitter) == if raw < cfg.maxBackoff then raw else cfg.maxBackoff
  {
  }

  lemma DelayInRange(cfg: Config, retries: nat, jitter: real)
    requires cfg.Valid() && IsJitter(cfg, jitter)
    ensures 0.0 < Delay(cfg, retries, jitter) <= cfg.maxBackoff
  {
    assert cfg.backoffTime * Pow2(retries) > 0;
  }

  /** One retry doubles the wait by more than any two jitters can differ, so the
      wait never shrinks, and grows until it reaches the cap. */
  lemma {:induction false} DelayGrows(cfg: Config, retries: nat, jitter: real, next: real)
    requires cfg.Valid() && IsJitter(cfg, jitter) && IsJitter(cfg, next)
    ensures Delay(cfg, retries, jitter) <= Delay(cfg, retries + 1, next)
    ensures Delay(cfg, retries, jitter) < cfg.maxBackoff ==>
              Delay(cfg, retries, jitter) < Delay(cfg, retries + 1, next)
  {
    var b, p := cfg.backoffTime, Pow2(retries);
    assert b * Pow2(retries + 1) == b * p + b * p;
    assert b * p >= b by { Scale(b, 1, p); }
  }

  lemma Scale(b: nat, x: nat, y: nat)
    requires x <= y
    ensures b * x <= b * y
  {
  }

  /** The waits of a row that fails `|jitters|` times in a row, starting at `retries`. */
  function TotalWait(cfg: Config, retries: nat, jitters: seq<real>): real
    decreases |jitters|
  {
    if jitters == [] then 0.0
    else Delay(cfg, retries, jitters[0]) + TotalWait(cfg, retries + 1, jitters[1..])
  }

  /** `n` waits at the cap. */
  function Caps(n: nat, cap: real): real {
    if n == 0 then 0.0 else cap + Caps(n - 1, cap)
  }

  lemma {:induction false} CapsIs(n: nat, cap: real)
    ensures Caps(n, cap) == n as real * cap
  {
    if n > 0 {
      CapsIs(n - 1, cap);
      OneMore(n - 1, cap);
    }
  }

  lemma {:induction false} TotalWaitCapped(cfg: Config, retries: nat, jitters: seq<real>)
    requires cfg.Valid() && forall i :: 0 <= i < |jitters| ==> IsJitter(cfg, jitters[i])
    ensures TotalWait(cfg, retries, jitters) <= Caps(|jitters|, cfg.maxBackoff)
    decreases |jitters|
  {
    if jitters != [] {
      DelayInRange(cfg, retries, jitters[0]);
      TotalWaitCapped(cfg, retries + 1, jitters[1..]);
    }
  }

  /** The waits without the cap and with the largest jitter each time. */
  function Budget(b: nat, retries: nat, n: nat): real
    decreases n
  {
    if n == 0 then 0.0
    else (b * Pow2(retries)) as real + b as real / 10.0 + Budget(b, retries + 1, n - 1)
  }

  lemma {:induction false} TotalWaitBudgeted(cfg: Config, retries: nat, jitters: seq<real>)
    requires cfg.Valid() && forall i :: 0 <= i < |jitters| ==> IsJitter(cfg, jitters[i])
    ensures TotalWait(cfg, retries, jitters) <= Budget(cfg.backoffTime, retries, |jitters|)
    decreases |jitters|
  {
    if jitters != [] {
      TotalWaitBudgeted(cfg, retries + 1, jitters[1..]);
    }
  }

  lemma {:induction false} BudgetSum(b: nat, retries: nat, n: nat)
    ensures Budget(b, retries, n) ==
              (b * (Pow2(retries + n) - Pow2(retries))) as real + n as real * (b as real / 10.0)
    decreases n
  {
    if n == 0 {
      assert b * (Pow2(retries) - Pow2(retries)) == 0;
    } else {
      BudgetSum(b, retries + 1, n - 1);
      assert retries + 1 + (n - 1) == retries + n;
      OneMore(n - 1, b as real / 10.0);
      Telescope(b, Pow2(retries), Pow2(retries + n));
    }
  }

  lemma OneMore(n: nat, x: real)
    ensures (n + 1) as real * x == n as real * x + x
  {
    assert (n + 1) as real == n as real + 1.0;
    Distribute(n as real, x);
  }

  lemma Distribute(r: real, x: real)
    ensures (r + 1.0) * x == r * x + x
  {
  }

  lemma Telescope(b: nat, lo: nat, hi: nat)
    ensures b * (hi - lo) == b * (hi - 2 * lo) + b * lo
  {
  }

  /** A row that uses up its `max_retries - 1` retries waits, in all, no longer than
      either bound allows. */
  lemma TotalWaitBound(cfg: Config, jitters: seq<real>)
    requires cfg.Valid() && |jitters| == cfg.maxRetries - 1
    requires forall i :: 0 <= i < |jitters| ==> IsJitter(cfg, jitters[i])
    ensures TotalWait(cfg, 0, jitters) <= (cfg.maxRetries - 1) as real * cfg.maxBackoff
    ensures TotalWait(cfg, 0, jitters) <=
              (cfg.backoffTime * (Pow2(cfg.maxRetries - 1) - 1)) as real
              + (cfg.maxRetries - 1) as real * (cfg.backoffTime as real / 10.0)
  {
    TotalWaitCapped(cfg, 0, jitters);
    CapsIs(|jitters|, cfg.maxBackoff);
    TotalWaitBudgeted(cfg, 0, jitters);
    BudgetSum(cfg.backoffTime, 0, |jitters|);
  }
}
