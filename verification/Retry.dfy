/** Retried database transactions. Whether a failed attempt took effect is known only for the
    failures that the server confirms as rolled back; writes are retried on those alone. */
module Retry {
  import opened Wrappers
  import opened PowersOfTwo
  import Backoff

  /** What one attempt ends in. landed: whether its effect is on the server, which a broken
      connection does not tell. `Other` is every exception that is neither a broken connection nor
      an SQL error. */
  datatype Outcome =
    | Committed
    | Sql(state: string, landed: bool)
    | Broken(landed: bool)
    | Other(landed: bool)

  type Attempts = nat -> Outcome

  type Classifier = Outcome -> bool

  function Lands(o: Outcome): bool { o.Committed? || o.landed }

  /** The server confirms these two as rolled back. */
  predicate Confirmed(o: Outcome) { o.Sql? && (o.state == "40001" || o.state == "40P01") }

  ghost predicate Honest(os: Attempts) { forall i :: Confirmed(os(i)) ==> !os(i).landed }

  predicate WriteTransient(o: Outcome) { Confirmed(o) }

  predicate ReadTransient(o: Outcome) {
    || o.Broken?
    || (o.Sql? && (
          || (|o.state| >= 2 && o.state[0] == '0' && o.state[1] == '8')
          || Confirmed(o)
          || (|o.state| >= 3 && o.state[0] == '5' && o.state[1] == '7' && o.state[2] == 'P')))
  }

  function Max(a: int, b: int): int { if a >= b then a else b }

  /** Attempt i fails and is retried. */
  predicate Goes(os: Attempts, transient: Classifier, max: int, i: nat) {
    !os(i).Committed? && i + 1 < max && transient(os(i))
  }

  /** How many attempts are made in all, counting from attempt k. */
  function Count(os: Attempts, transient: Classifier, max: int, k: nat): (n: nat)
    ensures k < n
    decreases Max(0, max - k)
  { if Goes(os, transient, max, k) then Count(os, transient, max, k + 1) else k + 1 }

  function Total(os: Attempts, transient: Classifier, max: int): (n: nat)
    ensures n > 0
  { Count(os, transient, max, 0) }

  /** The state after the first n attempts: f once for each that landed. */
  function After<S>(os: Attempts, f: S -> S, s: S, n: nat): S {
    if n == 0 then s else var r := After(os, f, s, n - 1); if Lands(os(n - 1)) then f(r) else r
  }

  function Effects(os: Attempts, n: nat): nat {
    if n == 0 then 0 else Effects(os, n - 1) + if Lands(os(n - 1)) then 1 else 0
  }

  /** One statement on a server: a state and the effect of the transaction on it. */
  method Run<S>(os: Attempts, f: S -> S, s: S, transient: Classifier, max: int)
    returns (after: S, last: Outcome, attempt: nat)
    ensures attempt == Total(os, transient, max) && last == os(attempt - 1)
    ensures after == After(os, f, s, attempt)
  {
    after, attempt := s, 0;
    while true
      invariant Count(os, transient, max, attempt) == Total(os, transient, max)
      invariant after == After(os, f, s, attempt)
      decreases Max(0, max - attempt)
    {
      last := os(attempt);
      if Lands(last) { after := f(after); }
      attempt := attempt + 1;
      if last.Committed? { return; }
      var canRetry := attempt < max && transient(last);
      if !canRetry { return; }
    }
  }

  /** What the number of attempts is, told without the loop: each but the last failed, was
      transient and had another attempt left; the last one is not so. */
  lemma {:induction false} CountIs(os: Attempts, transient: Classifier, max: int, k: nat, n: nat)
    requires k < n
    ensures Count(os, transient, max, k) == n <==>
      (forall i :: k <= i < n - 1 ==> Goes(os, transient, max, i)) && !Goes(os, transient, max, n - 1)
    decreases n - k
  {
    if Goes(os, transient, max, k) {
      if k + 1 < n { CountIs(os, transient, max, k + 1, n); }
    } else if k + 1 < n {
      assert k <= k < n - 1;
    }
  }

  lemma AttemptsAreBounded(os: Attempts, transient: Classifier, max: int)
    ensures 1 <= Total(os, transient, max) <= Max(1, max)
    ensures forall i :: 0 <= i < Total(os, transient, max) - 1 ==> Goes(os, transient, max, i)
  {
    var n := Total(os, transient, max);
    CountIs(os, transient, max, 0, n);
    if n > 1 { assert Goes(os, transient, max, n - 2); }
  }

  lemma {:induction false} NothingLands(os: Attempts, n: nat)
    requires forall i :: 0 <= i < n ==> !Lands(os(i))
    ensures Effects(os, n) == 0
  { if n > 0 { NothingLands(os, n - 1); } }

  /** It returns normally exactly if some attempt within the limit commits and every one before it is
      retried; by then that attempt is the last. */
  lemma ReturnsIf(os: Attempts, transient: Classifier, max: int)
    ensures os(Total(os, transient, max) - 1).Committed? <==>
      exists k: nat :: k < Max(1, max) && CommitsAt(os, transient, k)
  {
    var n := Total(os, transient, max);
    AttemptsAreBounded(os, transient, max);
    if os(n - 1).Committed? {
      forall i | 0 <= i < n - 1 ensures transient(os(i)) && !os(i).Committed? { assert Goes(os, transient, max, i); }
      assert CommitsAt(os, transient, n - 1);
    }
    if k: nat :| k < Max(1, max) && CommitsAt(os, transient, k) {
      forall i | 0 <= i < k ensures Goes(os, transient, max, i) {}
      CountIs(os, transient, max, 0, k + 1);
    }
  }

  ghost predicate CommitsAt(os: Attempts, transient: Classifier, k: nat) {
    os(k).Committed? && forall i :: 0 <= i < k ==> !os(i).Committed? && transient(os(i))
  }

  /** execute_write returns normally exactly if an attempt within the limit commits after nothing but
      serialization failures and deadlocks. */
  lemma WritesReturnIf(os: Attempts, max: int)
    ensures os(Total(os, WriteTransient, max) - 1).Committed? <==>
      exists k: nat :: k < Max(1, max) && os(k).Committed? &&
        forall i :: 0 <= i < k ==> os(i).Sql? && os(i).state in ["40001", "40P01"]
  {
    ReturnsIf(os, WriteTransient, max);
    hide Total;
    forall k: nat ensures CommitsAt(os, WriteTransient, k) <==>
      os(k).Committed? && forall i :: 0 <= i < k ==> os(i).Sql? && os(i).state in ["40001", "40P01"] {}
  }

  /** Reads, and writes declared idempotent, return normally exactly if an attempt within the limit commits
      after nothing but broken connections and SQL states of class 08, 40001, 40P01 and 57P. */
  lemma ReadsReturnIf(os: Attempts, max: int)
    ensures os(Total(os, ReadTransient, max) - 1).Committed? <==>
      exists k: nat :: k < Max(1, max) && os(k).Committed? && forall i :: 0 <= i < k ==> Liberal(os(i))
  {
    ReturnsIf(os, ReadTransient, max);
    hide Total;
    forall i: nat ensures Liberal(os(i)) <==> !os(i).Committed? && ReadTransient(os(i)) {}
    forall k: nat ensures CommitsAt(os, ReadTransient, k) <==> os(k).Committed? && forall i :: 0 <= i < k ==> Liberal(os(i)) {}
  }

  predicate Liberal(o: Outcome) {
    o.Broken? || (o.Sql? && ("08" <= o.state || "57P" <= o.state || o.state in ["40001", "40P01"]))
  }

  /** execute_write, for every sequence of outcomes: its effect lands at most once, exactly once if
      it returns normally, and otherwise exactly when the failure it throws had landed. */
  lemma WritesLandAtMostOnce(os: Attempts, max: int)
    requires Honest(os)
    ensures var n := Total(os, WriteTransient, max);
      && 1 <= n <= Max(1, max)
      && Effects(os, n) <= 1
      && (Effects(os, n) == 1 <==> Lands(os(n - 1)))
  {
    var n := Total(os, WriteTransient, max);
    AttemptsAreBounded(os, WriteTransient, max);
    forall i | 0 <= i < n - 1 ensures !Lands(os(i)) { assert Goes(os, WriteTransient, max, i); }
    NothingLands(os, n - 1);
  }

  /** The read classifier on a write: the write may land once for each attempt. */
  lemma LiberalRetryMayLandTwice(max: int)
    requires max >= 2
    ensures exists os: Attempts :: Honest(os) && Total(os, ReadTransient, max) == 2 && Effects(os, 2) == 2 && os(1).Committed?
  {
    var os: Attempts := i => if i == 0 then Broken(true) else Committed;
    CountIs(os, ReadTransient, max, 0, 2);
    assert Effects(os, 1) == 1;
    assert Honest(os) && Total(os, ReadTransient, max) == 2 && Effects(os, 2) == 2 && os(1).Committed?;
  }

  ghost predicate Idempotent<S(!new)>(f: S -> S) { forall s :: f(f(s)) == f(s) }

  /** From s, every run that returns normally leaves f(s). */
  ghost predicate Settles<S>(f: S -> S, s: S, max: int) {
    forall os: Attempts :: Honest(os) && os(Total(os, ReadTransient, max) - 1).Committed? ==>
      After(os, f, s, Total(os, ReadTransient, max)) == f(s)
  }

  lemma {:induction false} LandedIsOnce<S>(os: Attempts, f: S -> S, s: S, n: nat)
    requires f(f(s)) == f(s)
    ensures After(os, f, s, n) == if Effects(os, n) == 0 then s else f(s)
  { if n > 0 { LandedIsOnce(os, f, s, n - 1); } }

  /** execute_write_idempotent ends where one execution ends, from every state, for exactly the
      effects that are idempotent. */
  lemma IdempotentIsExactlyWhatItTakes<S(!new)>(f: S -> S, max: int)
    requires max >= 2
    ensures (forall s :: Settles(f, s, max)) <==> Idempotent(f)
  {
    if Idempotent(f) {
      forall s, os: Attempts | Honest(os) && os(Total(os, ReadTransient, max) - 1).Committed?
        ensures After(os, f, s, Total(os, ReadTransient, max)) == f(s)
      {
        LandedIsOnce(os, f, s, Total(os, ReadTransient, max));
      }
    }
    if forall s :: Settles(f, s, max) {
      forall s ensures f(f(s)) == f(s) {
        var os: Attempts := i => if i == 0 then Broken(true) else Committed;
        CountIs(os, ReadTransient, max, 0, 2);
        assert Settles(f, s, max) && Honest(os);
        assert After(os, f, s, 1) == f(s);
        assert After(os, f, s, 2) == f(f(s));
      }
    }
  }

  /** An idempotent write that throws has left either state, and within the attempts allowed. */
  lemma IdempotentWritesEndInOneOfTwoStates<S(!new)>(os: Attempts, f: S -> S, s: S, max: int)
    requires Idempotent(f)
    ensures var n := Total(os, ReadTransient, max);
      && n <= Max(1, max)
      && After(os, f, s, n) in {s, f(s)}
      && (os(n - 1).Committed? ==> After(os, f, s, n) == f(s))
  {
    AttemptsAreBounded(os, ReadTransient, max);
    LandedIsOnce(os, f, s, Total(os, ReadTransient, max));
  }

  // ---- Reads: a replica, then the primary ----------------------------------------------------

  const COUNTER: nat := 0x1_0000_0000_0000_0000

  predicate Answers(os: Attempts, max: int) { os(Total(os, ReadTransient, max) - 1).Committed? }

  /** replica(i) and primary are the outcomes that the attempts there would have. */
  class Manager {
    const replicas: nat
    const max: int
    var current: nat

    constructor (replicas: nat, max: int)
      ensures this.replicas == replicas && this.max == max && current == 0
    { this.replicas, this.max, this.current := replicas, max, 0; }

    /** Round robin over a counter of 64 bits. */
    method PickReplica() returns (i: nat)
      requires replicas > 0 && current < COUNTER
      modifies this`current
      ensures i == old(current) % replicas && current == (old(current) + 1) % COUNTER
    {
      i := current % replicas;
      current := (current + 1) % COUNTER;
    }

    /** ok: the read returned; tried: the attempts made on the primary. The replica whose turn it is comes
        first, and the primary gets its full budget only after that one failed. It throws only if every
        attempt on the primary that it is allowed has failed. */
    method ExecuteRead(replica: nat -> Attempts, primary: Attempts) returns (ok: bool, tried: nat)
      requires current < COUNTER
      modifies this`current
      ensures current < COUNTER
      ensures current == if replicas > 0 then (old(current) + 1) % COUNTER else old(current)
      ensures var first := replicas > 0 && Answers(replica(old(current) % replicas), max);
        && tried == (if first then 0 else Total(primary, ReadTransient, max))
        && (ok <==> first || Answers(primary, max))
      ensures !ok ==> forall i :: 0 <= i < tried ==> !primary(i).Committed?
    {
      tried := 0;
      if replicas > 0 {
        var i := PickReplica();
        var _, last, n := Run(replica(i), (u: int) => u, 0, ReadTransient, max);
        if last.Committed? { return true, 0; }
      }
      var _, last, n := Run(primary, (u: int) => u, 0, ReadTransient, max);
      AttemptsAreBounded(primary, ReadTransient, max);
      if !last.Committed? {
        forall i | 0 <= i < n ensures !primary(i).Committed? { assert i < n - 1 ==> Goes(primary, ReadTransient, max, i); }
      }
      return last.Committed?, n;
    }
  }

  /** The replica of the i-th read from now. */
  function Picked(current: nat, i: nat, n: nat): nat
    requires n > 0
  { (current + i) % COUNTER % n }

  lemma CloseRemaindersDiffer(x: int, y: int, n: int)
    requires 0 < y - x < n
    ensures x % n != y % n
  {
    var p, q, r, t := x / n, y / n, x % n, y % n;
    assert x == p * n + r && y == q * n + t;
    assert y - x == (q - p) * n + (t - r) by { assert (q - p) * n == q * n - p * n; }
    NoMultipleBetween(q - p, n);
  }

  /** Any n reads in a row use each of n replicas once, until the counter wraps. */
  lemma RoundRobinIsFair(n: nat, current: nat, i: nat, j: nat)
    requires i < j < n && current + n <= COUNTER
    ensures Picked(current, i, n) != Picked(current, j, n)
  {
    CloseRemaindersDiffer(current + i, current + j, n);
    assert (current + i) % COUNTER == current + i && (current + j) % COUNTER == current + j;
  }

  lemma NoMultipleBetween(d: int, n: int)
    requires n > 0
    ensures d * n <= 0 || d * n >= n
  {}

  // ---- Delays --------------------------------------------------------------------------------

  /** The delay before jitter, after failed attempt k (from 0). */
  function Delay(k: nat, baseMs: int, maxMs: int): int {
    var expo := baseMs * Pow2(if k < 10 then k else 10);
    if maxMs < expo then maxMs else expo
  }

  /** What jitter may turn it into. */
  predicate Jittered(d: int, k: nat, baseMs: int, maxMs: int) { 0 <= d <= Max(1, Delay(k, baseMs, maxMs)) }

  lemma ProductGrows(x: nat, p: int, q: int)
    requires 0 <= p <= q
    ensures 0 <= x * p <= x * q
  {}

  lemma DelaysGrowToTheCap(j: nat, k: nat, baseMs: nat, maxMs: nat)
    requires j <= k
    ensures 0 <= Delay(j, baseMs, maxMs) <= Delay(k, baseMs, maxMs) <= maxMs
    ensures Delay(k, baseMs, maxMs) < maxMs ==> Delay(k, baseMs, maxMs) == baseMs * Pow2(if k < 10 then k else 10)
  {
    var m, n := if j < 10 then j else 10, if k < 10 then k else 10;
    PowerIsMonotone(m, n);
    ProductGrows(baseMs, Pow2(m), Pow2(n));
  }

  function Sum(ds: seq<int>): int { if ds == [] then 0 else Sum(ds[..|ds| - 1]) + ds[|ds| - 1] }

  lemma {:induction false} SumIsBounded(ds: seq<int>, b: int)
    requires forall i :: 0 <= i < |ds| ==> 0 <= ds[i] <= b
    ensures 0 <= Sum(ds) <= |ds| * b
    decreases |ds|
  {
    if ds != [] {
      SumIsBounded(ds[..|ds| - 1], b);
      Distribute(|ds| - 1, b);
    }
  }

  lemma Distribute(n: int, b: int)
    ensures (n + 1) * b == n * b + b
  {}

  /** A wait may be drawn exactly if it is at most a millisecond, or at most both the cap and the base
      doubled with each failed attempt, ten times at most. */
  lemma WhatMayBeDrawn(d: nat, k: nat, baseMs: nat, maxMs: nat)
    ensures Jittered(d, k, baseMs, maxMs) <==>
      d <= 1 || (d <= maxMs && d <= baseMs * Pow2(if k < 10 then k else 10))
  {
    hide Pow2;
  }

  /** Whatever jitter draws, all the waits of one call together are at most one cap for each retry
      that the policy allows; a wait of one millisecond is the least jitter can be capped at. */
  lemma WaitsAreBounded(os: Attempts, transient: Classifier, max: int, baseMs: nat, maxMs: nat, ds: seq<int>)
    requires |ds| == Total(os, transient, max) - 1
    requires forall i :: 0 <= i < |ds| ==> Jittered(ds[i], i, baseMs, maxMs)
    ensures 0 <= Sum(ds) <= (Max(1, max) - 1) * Max(1, maxMs)
  {
    hide Delay, Sum, Total;
    AttemptsAreBounded(os, transient, max);
    forall i | 0 <= i < |ds| ensures 0 <= ds[i] <= Max(1, maxMs) {
      DelaysGrowToTheCap(i, i, baseMs, maxMs);
      assert Jittered(ds[i], i, baseMs, maxMs);
    }
    SumIsBounded(ds, Max(1, maxMs));
    ProductGrows(Max(1, maxMs), |ds|, Max(1, max) - 1);
  }

  /** 32-bit base times 2^10 fits the 64 bits it is computed in. */
  lemma ShiftDoesNotOverflow(k: nat, baseMs: nat)
    requires baseMs < 0x8000_0000
    ensures baseMs * Pow2(if k < 10 then k else 10) < Backoff.TWO_63
  {
    PowerIsMonotone(if k < 10 then k else 10, 10);
    var p := Pow2(if k < 10 then k else 10);
    assert Pow2(10) == 1024 by { assert Pow2(8) == 256; }
    ProductGrows(baseMs, p, 1024);
  }
}
