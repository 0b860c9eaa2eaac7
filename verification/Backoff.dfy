/** Retry backoff: base * 2^(k-1), the shift capped at 30, the delay capped at a maximum, all in
    64-bit signed arithmetic that wraps. */
module Backoff {
  import opened PowersOfTwo

  const TWO_63: int := 0x8000_0000_0000_0000
  const TWO_64: int := 0x1_0000_0000_0000_0000

  /** What a 64-bit signed register holds after computing x. */
  function Wrap64(x: int): (r: int)
    ensures -TWO_63 <= r < TWO_63
    ensures -TWO_63 <= x < TWO_63 ==> r == x
  { (x + TWO_63) % TWO_64 - TWO_63 }

  datatype Config = Config(defaultMaxRetries: int, backoffBase: int, backoffMax: int, visibilityMs: int) {
    /** set_retry_backoff */
    function WithBackoff(baseMs: int, maxMs: int): Config {
      this.(backoffBase := if baseMs < 0 then 0 else baseMs, backoffMax := if maxMs < baseMs then baseMs else maxMs)
    }

    /** set_visibility_timeout */
    function WithVisibility(sec: int): Config { this.(visibilityMs := if sec <= 0 then 0 else Wrap64(sec * 1000)) }

    predicate Backing() { 0 < backoffBase <= backoffMax < TWO_63 }
  }

  /** set_retry_backoff with a positive base, both 64-bit numbers, gives a working backoff, whatever
      the maximum. A timeout is kept, or leases are off for one that is not positive, exactly if its
      milliseconds fit 64 bits. */
  lemma SettersGiveSoundConfigs(cfg: Config, baseMs: int, maxMs: int, sec: int)
    requires -TWO_63 <= baseMs < TWO_63 && -TWO_63 <= maxMs < TWO_63
    ensures cfg.WithBackoff(baseMs, maxMs).Backing() <==> baseMs > 0
    ensures cfg.WithVisibility(sec).visibilityMs == (if sec <= 0 then 0 else sec * 1000) <==> sec * 1000 < TWO_63
  {}

  function Shift(k: int): nat { if k <= 0 then 0 else if k - 1 > 30 then 30 else k - 1 }

  function Delay(cfg: Config, k: int): int {
    if cfg.backoffBase <= 0 then 0 else
      var delay := Wrap64(cfg.backoffBase * Pow2(Shift(k)));
      if delay <= 0 || delay > cfg.backoffMax then cfg.backoffMax else delay
  }

  /** The delay the documentation promises: it doubles with each attempt after the first, thirty times at
      most. */
  function Promised(cfg: Config, k: int): int {
    var d := cfg.backoffBase * Pow2(if k <= 1 then 0 else if k > 31 then 30 else k - 1);
    if d < cfg.backoffMax then d else cfg.backoffMax
  }

  /** The configured delay is the promised one exactly when the shift does not overflow, or
      overflows to a value the cap swallows. */
  lemma DelayIsPromised(cfg: Config, k: int)
    requires cfg.Backing()
    ensures Delay(cfg, k) == Promised(cfg, k) <==>
      var d := cfg.backoffBase * Pow2(if k <= 1 then 0 else if k > 31 then 30 else k - 1);
      d < TWO_63 || Wrap64(d) <= 0 || Wrap64(d) >= cfg.backoffMax
    ensures 0 < Delay(cfg, k) <= cfg.backoffMax
  {
    MulPositive(cfg.backoffBase, Pow2(Shift(k)));
  }

  lemma MulPositive(a: int, b: int)
    requires a > 0 && b > 0
    ensures a * b >= a
  {
    if b > 1 { MulPositive(a, b - 1); assert a * b == a * (b - 1) + a; }
  }

  /** With a base below 2^33 ms no shift overflows: every delay is the promised one, and a later
      attempt never waits less than an earlier one. */
  lemma DelayIsMonotone(cfg: Config, j: int, k: int)
    requires cfg.Backing() && cfg.backoffBase < 0x2_0000_0000 && j <= k
    ensures Delay(cfg, k) == Promised(cfg, k)
    ensures Delay(cfg, j) <= Delay(cfg, k)
  {
    var b, m, n := cfg.backoffBase, Pow2(Shift(j)), Pow2(Shift(k));
    PowerIsMonotone(Shift(j), Shift(k));
    PowerIsMonotone(Shift(k), 30);
    TopShift();
    Scale(b, m, n);
    Scale(b, n, 0x4000_0000);
    assert b * 0x4000_0000 < TWO_63;
    DelayIsPromised(cfg, j);
    DelayIsPromised(cfg, k);
  }

  function Min(a: int, b: int): int { if a < b then a else b }

  /** The same told from one attempt to the next: the first delay is the base, each later one twice the
      one before, all up to the cap, and from the 31st attempt on they stay. */
  lemma DelaysDouble(cfg: Config, k: int)
    requires cfg.Backing() && cfg.backoffBase < 0x2_0000_0000
    ensures Delay(cfg, 1) == Min(cfg.backoffBase, cfg.backoffMax)
    ensures 1 <= k <= 30 ==> Delay(cfg, k + 1) == Min(2 * Delay(cfg, k), cfg.backoffMax)
    ensures k > 31 ==> Delay(cfg, k) == Delay(cfg, 31)
  {
    DelayIsMonotone(cfg, 1, 1);
    DelayIsMonotone(cfg, 31, 31);
    DelayIsMonotone(cfg, k, k);
    DelayIsMonotone(cfg, k + 1, k + 1);
    if 1 <= k <= 30 { Twice(cfg.backoffBase, Pow2(k - 1)); }
  }

  lemma Twice(b: int, p: int)
    ensures b * (2 * p) == 2 * (b * p)
  {}

  lemma Scale(b: int, m: int, n: int)
    requires b >= 0 && m <= n
    ensures b * m <= b * n
  {}

  lemma TopShift()
    ensures Pow2(30) == 0x4000_0000
  {
    assert Pow2(10) == 1024;
    assert Pow2(20) == 1024 * 1024;
  }

  /** A base of 2^34 + 1 ms wraps to about twelve days on the 31st attempt, far below the cap. */
  lemma HugeBaseWrapsShort()
    ensures var cfg := Config(3, 0x4_0000_0001, 0x8_0000_0000, 0);
            cfg.Backing() && Delay(cfg, 31) == 0x4000_0000 < Promised(cfg, 31)
            && Delay(cfg, 31) < Delay(cfg, 1)
  {
    TopShift();
    assert 0x4_0000_0001 * 0x4000_0000 == TWO_64 + 0x4000_0000;
    assert Wrap64(TWO_64 + 0x4000_0000) == 0x4000_0000;
  }
}
