/** The sliding-window rate limiter: one Redis sorted set per key, trimmed and appended by a Lua
    script, with a TTL that the script renews on every admission. Only the scores matter, and the
    members are unique, so a sorted set is the sequence of its scores in order. */
module RateLimit {
  /** ZREMRANGEBYSCORE key 0 cutoff. */
  function Trim(entries: seq<int>, cutoff: int): seq<int>
    decreases |entries|
  {
    if entries == [] then [] else
      var n := |entries| - 1;
      Trim(entries[..n], cutoff) + if 0 <= entries[n] <= cutoff then [] else [entries[n]]
  }

  /** ZADD of a new member: it goes after every member whose score is not greater. */
  function Insert(entries: seq<int>, score: int): seq<int> {
    if entries == [] || entries[|entries| - 1] <= score then entries + [score]
    else Insert(entries[..|entries| - 1], score) + [entries[|entries| - 1]]
  }

  datatype Reply = Reply(allowed: bool, count: nat, retryMs: int)

  /** The set as Redis keeps it: the scores, and the time the key expires. */
  datatype Key = Key(entries: seq<int>, expiresAt: int)

  /** What Redis still holds at time now. */
  function Held(k: Key, now: int): seq<int> { if now >= k.expiresAt then [] else k.entries }

  /** The script. */
  function Script(k: Key, now: int, window: int, limit: int): (Key, Reply) {
    var kept := Trim(Held(k, now), now - window);
    if |kept| >= limit then
      var oldest := if kept == [] then now else kept[0];
      var wait := oldest + window - now;
      (k.(entries := kept, expiresAt := if kept == [] then now else k.expiresAt),
       Reply(false, |kept|, if wait < 1 then 1 else wait))
    else
      (Key(Insert(kept, now), now + window + 1000), Reply(true, |kept| + 1, 0))
  }

  datatype Decision = Decision(allowed: bool, remaining: int, retryAfterSec: int)

  /** What check_window makes of the script's reply. */
  function Decide(r: Reply, requests: int): Decision {
    Decision(r.allowed,
             if requests - r.count > 0 then requests - r.count else 0,
             if r.allowed then 0 else if (r.retryMs + 999) / 1000 > 1 then (r.retryMs + 999) / 1000 else 1)
  }

  /** One key and one configuration; log is every admission ever made. */
  class Limiter {
    const requests: int
    const windowMs: int
    var key: Key
    ghost var log: seq<int>
    ghost var last: int

    constructor (requests: int, windowSec: int, start: int)
      requires requests >= 1 && windowSec >= 1 && start >= 0
      ensures this.requests == requests && windowMs == windowSec * 1000 && log == [] && last == start && Valid()
    {
      this.requests, windowMs, key, log, last := requests, windowSec * 1000, Key([], 0), [], start;
    }

    ghost predicate Valid()
      reads this
    { requests >= 1 && windowMs >= 1000 && Inv(State(key, log, last), windowMs, requests) }

    /** The script, command by command. */
    method Eval(now: int) returns (reply: Reply)
      modifies this`key
      ensures (key, reply) == Script(old(key), now, windowMs, requests)
    {
      var entries := if now >= key.expiresAt then [] else key.entries;
      entries := Trim(entries, now - windowMs);
      var count := |entries|;
      if count >= requests {
        var oldest := if entries == [] then now else entries[0];
        var wait := oldest + windowMs - now;
        if wait < 1 { wait := 1; }
        key := Key(entries, if entries == [] then now else key.expiresAt);
        return Reply(false, count, wait);
      }
      entries := Insert(entries, now);
      key := Key(entries, now + windowMs + 1000);
      reply := Reply(true, count + 1, 0);
    }

    /** The decision is the one that the whole admission log calls for. */
    method CheckWindow(now: int) returns (d: Decision)
      requires Valid() && now >= last
      modifies this
      ensures Valid() && last == now
      ensures d == Decide(FromLog(old(log), now, windowMs, requests), requests)
      ensures log == if d.allowed then old(log) + [now] else old(log)
      ensures d.allowed <==> |Between(old(log), now - windowMs, now)| < requests
      ensures d.remaining == requests - |Between(log, now - windowMs, now)|
    {
      hide Between, FromLog, Script, Inv;
      TheClientIsToldTheTruth(State(key, log, last), now, windowMs, requests, 0);
      ScriptFollowsLog(State(key, log, last), now, windowMs, requests);
      var reply := Eval(now);
      if reply.allowed { log := log + [now]; }
      last := now;
      var remaining := requests - reply.count;
      if remaining < 0 { remaining := 0; }
      var retryAfter := 0;
      if !reply.allowed {
        retryAfter := (reply.retryMs + 999) / 1000;
        if retryAfter < 1 { retryAfter := 1; }
      }
      d := Decision(reply.allowed, remaining, retryAfter);
    }
  }

  // ---- The full admission log ----------------------------------------------------------------

  /** The admissions in the half-open interval (from, to]. */
  function Between(log: seq<int>, from: int, to: int): (r: seq<int>)
    ensures forall x :: x in r <==> x in log && from < x <= to
  {
    if log == [] then [] else
      var n := |log| - 1;
      assert log == log[..n] + [log[n]];
      Between(log[..n], from, to) + if from < log[n] <= to then [log[n]] else []
  }

  /** The reply computed from the whole history, without trimming or expiry. */
  function FromLog(log: seq<int>, now: int, window: int, limit: int): Reply {
    var recent := Between(log, now - window, now);
    if |recent| >= limit then
      var wait := (if recent == [] then now else recent[0]) + window - now;
      Reply(false, |recent|, if wait < 1 then 1 else wait)
    else Reply(true, |recent| + 1, 0)
  }

  ghost predicate Sorted(l: seq<int>) { forall i, j :: 0 <= i <= j < |l| ==> l[i] <= l[j] }

  /** Any limit + 1 consecutive admissions span at least a window. */
  ghost predicate Spaced(log: seq<int>, window: int, limit: int)
    requires limit >= 1
  { forall k :: limit <= k < |log| ==> log[k] - log[k - limit] >= window }

  datatype State = State(key: Key, log: seq<int>, last: int)

  ghost predicate Inv(s: State, window: int, limit: int)
    requires limit >= 1
  {
    && Sorted(s.log) && Spaced(s.log, window, limit)
    && (forall x :: x in s.log ==> 0 <= x <= s.last)
    && s.key.entries == Between(s.log, s.last - window, s.last)
    && (s.log != [] ==> s.key.entries == [] || s.key.expiresAt == s.log[|s.log| - 1] + window + 1000)
    && s.last >= 0
  }

  lemma BetweenLast(log: seq<int>, x: int, a: int, b: int)
    ensures Between(log + [x], a, b) == Between(log, a, b) + if a < x <= b then [x] else []
  { assert (log + [x])[..|log|] == log; }

  lemma TrimLast(entries: seq<int>, x: int, cutoff: int)
    ensures Trim(entries + [x], cutoff) == Trim(entries, cutoff) + if 0 <= x <= cutoff then [] else [x]
  { assert (entries + [x])[..|entries|] == entries; }

  /** Trimming what an earlier trim left is trimming the whole log. */
  lemma {:induction false} TrimBetween(log: seq<int>, a: int, b: int, c: int, d: int)
    requires a <= c && b <= d && forall i :: 0 <= i < |log| ==> 0 <= log[i] <= b
    ensures Trim(Between(log, a, b), c) == Between(log, c, d)
    decreases |log|
  {
    if log == [] {
      NothingToTrim(c);
    } else {
      var front, x := log[..|log| - 1], log[|log| - 1];
      assert log == front + [x];
      TrimBetween(front, a, b, c, d);
      hide Between, Trim;
      BetweenLast(front, x, a, b);
      BetweenLast(front, x, c, d);
      TrimLast(Between(front, a, b), x, c);
      assert x <= a ==> Between(front, a, b) + [] == Between(front, a, b) && Between(front, c, d) + [] == Between(front, c, d);
      assert a < x <= c ==> Between(front, c, d) + [] == Between(front, c, d);
    }
  }

  /** An expired key held nothing of the current window. */
  lemma ExpiredIsOld(s: State, now: int, window: int, limit: int)
    requires window >= 1 && limit >= 1 && Inv(s, window, limit) && now >= s.last
    requires now >= s.key.expiresAt && s.key.entries != []
    ensures Between(s.log, now - window, now) == []
  {
    assert forall i :: 0 <= i < |s.log| ==> s.log[i] <= s.log[|s.log| - 1];
    NothingRecent(s.log, now - window, now);
  }

  /** The trimmed, expiring set holds exactly the admissions of the current window: the TTL never
      discards an entry younger than the window. */
  lemma KeptIsRecent(s: State, now: int, window: int, limit: int)
    requires window >= 1 && limit >= 1 && Inv(s, window, limit) && now >= s.last
    ensures Trim(Held(s.key, now), now - window) == Between(s.log, now - window, now)
  {
    assert forall i :: 0 <= i < |s.log| ==> s.log[i] in s.log;
    TrimBetween(s.log, s.last - window, s.last, now - window, now);
    if now >= s.key.expiresAt && s.key.entries != [] { ExpiredIsOld(s, now, window, limit); }
  }

  lemma {:induction false} NothingRecent(log: seq<int>, from: int, to: int)
    requires forall i :: 0 <= i < |log| ==> log[i] <= from
    ensures Between(log, from, to) == []
    decreases |log|
  {
    if log != [] { NothingRecent(log[..|log| - 1], from, to); }
  }

  lemma {:induction false} CountFromRight(log: seq<int>, from: int, to: int, m: nat)
    requires Sorted(log) && m <= |log| && (m > 0 ==> log[|log| - m] > from) && forall x :: x in log ==> x <= to
    ensures |Between(log, from, to)| >= m
  {
    if m > 0 {
      var n := |log| - 1;
      assert log[n] in log && log[n] > from;
      assert forall x :: x in log[..n] ==> x in log;
      CountFromRight(log[..n], from, to, m - 1);
    }
  }

  lemma SortedAppend(log: seq<int>, x: int)
    requires Sorted(log) && forall k :: 0 <= k < |log| ==> log[k] <= x
    ensures Sorted(log + [x])
  {}

  lemma SpacedAppend(log: seq<int>, x: int, window: int, limit: int)
    requires limit >= 1 && Spaced(log, window, limit) && (|log| >= limit ==> x - log[|log| - limit] >= window)
    ensures Spaced(log + [x], window, limit)
  {
    forall k | limit <= k < |log + [x]| ensures (log + [x])[k] - (log + [x])[k - limit] >= window {
      if k < |log| { assert log[k] - log[k - limit] >= window; }
    }
  }

  lemma AdmissionIsSpaced(log: seq<int>, now: int, window: int, limit: int)
    requires limit >= 1 && Sorted(log) && Spaced(log, window, limit) && (forall x :: x in log ==> x <= now)
    requires |Between(log, now - window, now)| < limit
    ensures Sorted(log + [now]) && Spaced(log + [now], window, limit)
  {
    forall k | 0 <= k < |log| ensures log[k] <= now { assert log[k] in log; }
    SortedAppend(log, now);
    if |log| >= limit && log[|log| - limit] > now - window { CountFromRight(log, now - window, now, limit); }
    SpacedAppend(log, now, window, limit);
  }

  lemma RepliesAgree(s: State, now: int, window: int, limit: int)
    requires window >= 1 && limit >= 1 && Inv(s, window, limit) && now >= s.last
    ensures Script(s.key, now, window, limit).1 == FromLog(s.log, now, window, limit)
  {
    KeptIsRecent(s, now, window, limit);
  }

  lemma NothingToTrim(cutoff: int)
    ensures Trim([], cutoff) == []
  {}

  lemma DenialKeepsInv(s: State, now: int, window: int, limit: int)
    requires window >= 1 && limit >= 1 && Inv(s, window, limit) && now >= s.last
    requires |Between(s.log, now - window, now)| >= limit
    ensures Inv(State(Script(s.key, now, window, limit).0, s.log, now), window, limit)
  {
    hide Between, Trim, Sorted, Spaced;
    KeptIsRecent(s, now, window, limit);
    NothingToTrim(now - window);
  }

  /** The newest admission goes to the end of what is recent. */
  lemma AdmissionIsLast(log: seq<int>, now: int, window: int)
    requires window >= 1 && forall x :: x in log ==> 0 <= x <= now
    ensures var recent := Between(log, now - window, now);
      && Between(log + [now], now - window, now) == recent + [now]
      && Insert(recent, now) == recent + [now]
  {
    var recent, log' := Between(log, now - window, now), log + [now];
    assert log'[..|log|] == log;
    assert recent == [] || recent[|recent| - 1] in recent;
  }

  lemma AdmittedKey(s: State, now: int, window: int, limit: int)
    requires window >= 1 && limit >= 1 && Inv(s, window, limit) && now >= s.last
    requires |Between(s.log, now - window, now)| < limit
    ensures Script(s.key, now, window, limit).0 == Key(Between(s.log + [now], now - window, now), now + window + 1000)
  {
    KeptIsRecent(s, now, window, limit);
    AdmissionIsLast(s.log, now, window);
  }

  lemma AdmissionKeepsInv(s: State, now: int, window: int, limit: int)
    requires window >= 1 && limit >= 1 && Inv(s, window, limit) && now >= s.last
    requires |Between(s.log, now - window, now)| < limit
    ensures Inv(State(Script(s.key, now, window, limit).0, s.log + [now], now), window, limit)
  {
    hide Script, Between, Spaced, Sorted;
    AdmittedKey(s, now, window, limit);
    AdmissionIsSpaced(s.log, now, window, limit);
    var log' := s.log + [now];
    assert forall x :: x in log' <==> x in s.log || x == now;
  }

  /** The script and the log agree, and the invariant survives the request. */
  lemma ScriptFollowsLog(s: State, now: int, window: int, limit: int)
    requires window >= 1 && limit >= 1 && Inv(s, window, limit) && now >= s.last
    ensures var (key', reply) := Script(s.key, now, window, limit);
      && reply == FromLog(s.log, now, window, limit)
      && Inv(State(key', if reply.allowed then s.log + [now] else s.log, now), window, limit)
  {
    RepliesAgree(s, now, window, limit);
    if |Between(s.log, now - window, now)| < limit {
      AdmissionKeepsInv(s, now, window, limit);
    } else {
      DenialKeepsInv(s, now, window, limit);
    }
  }

  // ---- What the limiter is for ---------------------------------------------------------------

  /** One request: the script's reply, and the log with the admission if there was one. */
  function Request(s: State, now: int, window: int, limit: int): State {
    var (key', reply) := Script(s.key, now, window, limit);
    State(key', if reply.allowed then s.log + [now] else s.log, now)
  }

  function Requests(s: State, times: seq<int>, window: int, limit: int): State
    decreases |times|
  {
    if times == [] then s else Request(Requests(s, times[..|times| - 1], window, limit), times[|times| - 1], window, limit)
  }

  lemma {:induction false} RunKeepsInv(s: State, times: seq<int>, window: int, limit: int)
    requires window >= 1 && limit >= 1 && Inv(s, window, limit)
    requires Sorted([s.last] + times)
    ensures Inv(Requests(s, times, window, limit), window, limit)
    ensures Requests(s, times, window, limit).last == ([s.last] + times)[|times|]
    decreases |times|
  {
    if times != [] {
      var n := |times| - 1;
      assert forall k :: 0 <= k <= n ==> ([s.last] + times[..n])[k] == ([s.last] + times)[k];
      RunKeepsInv(s, times[..n], window, limit);
      assert ([s.last] + times)[n] <= ([s.last] + times)[n + 1];
      ScriptFollowsLog(Requests(s, times[..n], window, limit), times[n], window, limit);
    }
  }

  /** m admissions in an interval are the last of m consecutive ones that start inside it. */
  lemma {:induction false} Straddle(log: seq<int>, from: int, to: int, m: nat) returns (k: nat)
    requires Sorted(log) && 1 <= m <= |Between(log, from, to)|
    ensures m - 1 <= k < |log| && log[k] <= to && log[k - (m - 1)] > from
    decreases |log|
  {
    var n := |log| - 1;
    assert Sorted(log[..n]);
    if !(from < log[n] <= to) {
      k := Straddle(log[..n], from, to, m);
    } else if m == 1 {
      k := n;
    } else {
      var j := Straddle(log[..n], from, to, m - 1);
      k := n;
    }
  }

  lemma WindowHoldsAtMost(s: State, t: int, window: int, limit: int)
    requires window >= 1 && limit >= 1 && Inv(s, window, limit)
    ensures |Between(s.log, t - window, t)| <= limit
  {
    if |Between(s.log, t - window, t)| > limit {
      var k := Straddle(s.log, t - window, t, limit + 1);
    }
  }

  /** For every run of requests with a clock that does not go back, and every time t, the window
      (t - window, t] contains at most limit admissions. */
  lemma NoWindowOverflows(times: seq<int>, start: int, window: int, limit: int, t: int)
    requires window >= 1 && limit >= 1 && start >= 0 && Sorted([start] + times)
    ensures |Between(Requests(State(Key([], 0), [], start), times, window, limit).log, t - window, t)| <= limit
  {
    var s0 := State(Key([], 0), [], start);
    RunKeepsInv(s0, times, window, limit);
    WindowHoldsAtMost(Requests(s0, times, window, limit), t, window, limit);
  }

  lemma DenialIsFull(s: State, now: int, window: int, limit: int)
    requires window >= 1 && limit >= 1 && Inv(s, window, limit) && now >= s.last
    requires !FromLog(s.log, now, window, limit).allowed
    ensures var r, recent := FromLog(s.log, now, window, limit), Between(s.log, now - window, now);
      && r.count == |recent| == limit && r.retryMs == recent[0] + window - now >= 1
      && Decide(r, limit).remaining == 0 && now + Decide(r, limit).retryAfterSec * 1000 >= recent[0] + window
  {
    WindowHoldsAtMost(s, now, window, limit);
    var recent := Between(s.log, now - window, now);
    assert recent[0] in recent;
    WholeSeconds(FromLog(s.log, now, window, limit).retryMs);
  }

  lemma DeniedUntilThen(s: State, now: int, window: int, limit: int, t: int)
    requires window >= 1 && limit >= 1 && Inv(s, window, limit) && t >= now >= s.last
    requires !FromLog(s.log, now, window, limit).allowed
    ensures var r := FromLog(s.log, now, window, limit);
      FromLog(s.log, t, window, limit).allowed <==> t >= now + r.retryMs
  {
    DenialIsFull(s, now, window, limit);
    DeniedUntil(s.log, now, window, limit, t);
  }

  /** A denial means a full window, and its wait is exact: with no other traffic, every earlier
      request is denied and the one at the end of the wait is admitted. So is one after the wait
      in whole seconds that the client is told. */
  lemma RetryTimeIsExact(s: State, now: int, window: int, limit: int, t: int)
    requires window >= 1 && limit >= 1 && Inv(s, window, limit) && now >= s.last
    requires !FromLog(s.log, now, window, limit).allowed && t >= now
    ensures var r := FromLog(s.log, now, window, limit);
      && r.count == limit && r.retryMs >= 1
      && (FromLog(s.log, t, window, limit).allowed <==> t >= now + r.retryMs)
      && Decide(r, limit).remaining == 0
      && FromLog(s.log, now + Decide(r, limit).retryAfterSec * 1000, window, limit).allowed
  {
    DenialIsFull(s, now, window, limit);
    DeniedUntilThen(s, now, window, limit, t);
    DeniedUntilThen(s, now, window, limit, now + Decide(FromLog(s.log, now, window, limit), limit).retryAfterSec * 1000);
  }

  lemma WholeSeconds(ms: int)
    requires ms >= 1
    ensures (ms + 999) / 1000 >= 1 && (ms + 999) / 1000 * 1000 >= ms
    ensures forall sec: int :: sec * 1000 >= ms <==> sec >= (ms + 999) / 1000
  {}

  /** A request is admitted if the window before it has room. Remaining is what the window leaves free after
      the request; and the seconds told on a denial are the least whole ones after which a request is
      admitted, without other traffic. */
  lemma TheClientIsToldTheTruth(s: State, now: int, window: int, limit: int, sec: nat)
    requires window >= 1 && limit >= 1 && Inv(s, window, limit) && now >= s.last
    ensures var d, t := Decide(FromLog(s.log, now, window, limit), limit), now + sec * 1000;
      && (d.allowed <==> |Between(s.log, now - window, now)| < limit)
      && d.remaining == limit - |Between(if d.allowed then s.log + [now] else s.log, now - window, now)|
      && (d.allowed ==> d.retryAfterSec == 0)
      && (!d.allowed ==> (|Between(s.log, t - window, t)| < limit <==> sec >= d.retryAfterSec))
  {
    hide Between, Sorted, Spaced;
    if |Between(s.log, now - window, now)| < limit {
      AdmissionIsLast(s.log, now, window);
    } else {
      DenialIsFull(s, now, window, limit);
      LeastSeconds(s, now, window, limit, sec);
    }
  }

  lemma LeastSeconds(s: State, now: int, window: int, limit: int, sec: nat)
    requires window >= 1 && limit >= 1 && Inv(s, window, limit) && now >= s.last
    requires !FromLog(s.log, now, window, limit).allowed
    ensures var d, t := Decide(FromLog(s.log, now, window, limit), limit), now + sec * 1000;
      |Between(s.log, t - window, t)| < limit <==> sec >= d.retryAfterSec
  {
    hide Between, Inv;
    DenialIsFull(s, now, window, limit);
    DeniedUntilThen(s, now, window, limit, now + sec * 1000);
    WholeSeconds(FromLog(s.log, now, window, limit).retryMs);
  }

  lemma {:induction false} BetweenIsSorted(log: seq<int>, from: int, to: int)
    requires Sorted(log)
    ensures Sorted(Between(log, from, to))
    decreases |log|
  {
    if log != [] {
      var n := |log| - 1;
      BetweenIsSorted(log[..n], from, to);
      var front := Between(log[..n], from, to);
      forall i | 0 <= i < |front| ensures front[i] <= log[n] { assert front[i] in front; }
      SortedAppend(front, log[n]);
    }
  }

  /** The oldest entry is the first to go. */
  lemma {:induction false} TrimTakesTheOldest(l: seq<int>, cutoff: int)
    requires Sorted(l) && l != [] && l[0] >= 0
    ensures |Trim(l, cutoff)| <= |l| && (|Trim(l, cutoff)| == |l| <==> l[0] > cutoff)
    decreases |l|
  {
    var n := |l| - 1;
    assert l[0] <= l[n];
    if n > 0 { TrimTakesTheOldest(l[..n], cutoff); }
  }

  /** A later window of the same log has fewer entries exactly when the oldest has gone. */
  lemma LaterWindow(log: seq<int>, a: int, b: int, c: int, d: int)
    requires Sorted(log) && a <= c && b <= d && (forall x :: x in log ==> 0 <= x <= b) && Between(log, a, b) != []
    ensures |Between(log, c, d)| < |Between(log, a, b)| <==> Between(log, a, b)[0] <= c
    ensures |Between(log, c, d)| <= |Between(log, a, b)|
  {
    var recent := Between(log, a, b);
    assert recent[0] in recent;
    BetweenIsSorted(log, a, b);
    assert forall i :: 0 <= i < |log| ==> log[i] in log;
    TrimBetween(log, a, b, c, d);
    TrimTakesTheOldest(recent, c);
  }

  lemma DeniedUntil(log: seq<int>, now: int, window: int, limit: int, t: int)
    requires Sorted(log) && window >= 1 && limit >= 1 && t >= now && forall x :: x in log ==> 0 <= x <= now
    requires |Between(log, now - window, now)| == limit
    ensures FromLog(log, t, window, limit).allowed <==> t >= Between(log, now - window, now)[0] + window
  {
    LaterWindow(log, now - window, now, t - window, t);
  }
}
