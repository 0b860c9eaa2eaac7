/** The Kafka consumer loop on one partition: commit after the callback, seek back after a failure,
    and give up on a message that has failed too often in a row. */
module Consumer {
  import opened Wrappers

  const MAX_POISON := 5

  /** The callback's result, and whether the commit or the seek that follows it succeeds. */
  datatype Outcome = Outcome(ok: bool, commits: bool, seeks: bool)

  /** What the broker and the process see, in order. */
  datatype Item = Got(offset: nat, ok: bool) | Restarted

  /** position: the next offset to fetch. committed: where a restart resumes. */
  datatype World = World(position: nat, committed: nat, poisonOffset: int, poisonCount: nat, log: seq<Item>)

  datatype Event = Deliver(o: Outcome) | Restart

  function Delivered(w: World, o: Outcome): World {
    var off := w.position;
    var w' := w.(position := off + 1, log := w.log + [Got(off, o.ok)]);
    var next := if o.commits then off + 1 else w.committed;
    if o.ok then w'.(poisonOffset := -1, poisonCount := 0, committed := next)
    else
      var count := if off == w.poisonOffset then w.poisonCount + 1 else 1;
      if count >= MAX_POISON then w'.(poisonOffset := -1, poisonCount := 0, committed := next)
      else w'.(poisonOffset := off, poisonCount := count, position := if o.seeks then off else off + 1)
  }

  function Step(w: World, e: Event): World {
    match e
    case Deliver(o) => Delivered(w, o)
    case Restart => w.(position := w.committed, poisonOffset := -1, poisonCount := 0, log := w.log + [Restarted])
  }

  function Run(w: World, es: seq<Event>): World
    decreases |es|
  { if es == [] then w else Step(Run(w, es[..|es| - 1]), es[|es| - 1]) }

  function Start(offset: nat): World { World(offset, offset, -1, 0, []) }

  class KafkaConsumer {
    var position: nat
    var committed: nat
    var poisonOffset: int
    var poisonCount: nat
    ghost var log: seq<Item>

    ghost function View(): World reads this { World(position, committed, poisonOffset, poisonCount, log) }

    constructor (offset: nat)
      ensures View() == Start(offset)
    { position, committed, poisonOffset, poisonCount, log := offset, offset, -1, 0, []; }

    method Commit(off: nat, ok: bool)
      modifies this`committed
      ensures View() == old(View()).(committed := if ok then off + 1 else old(committed))
    { if ok { committed := off + 1; } }

    /** One message, as the loop handles it. */
    method Handle(o: Outcome)
      modifies this
      ensures View() == Delivered(old(View()), o)
    {
      var off := position;
      position := off + 1;
      log := log + [Got(off, o.ok)];
      if o.ok {
        poisonOffset, poisonCount := -1, 0;
        Commit(off, o.commits);
        return;
      }
      if off == poisonOffset { poisonCount := poisonCount + 1; } else { poisonOffset, poisonCount := off, 1; }
      if poisonCount >= MAX_POISON {
        Commit(off, o.commits);
        poisonOffset, poisonCount := -1, 0;
      } else if o.seeks {
        position := off;
      }
    }

    /** polls: what each poll brings, until the loop is stopped; `None` is a timeout. */
    method StartConsuming(polls: seq<Option<Outcome>>)
      modifies this
      ensures View() == Run(old(View()), Deliveries(polls))
    {
      for i := 0 to |polls|
        invariant View() == Run(old(View()), Deliveries(polls[..i]))
      {
        assert polls[..i + 1][..i] == polls[..i];
        if polls[i].Some? {
          ghost var es := Deliveries(polls[..i]);
          assert (es + [Deliver(polls[i].value)])[..|es|] == es;
          Handle(polls[i].value);
        }
      }
      assert polls[..|polls|] == polls;
    }
  }

  function Deliveries(polls: seq<Option<Outcome>>): seq<Event> {
    if polls == [] then []
    else var es := Deliveries(polls[..|polls| - 1]);
         var last := polls[|polls| - 1];
         if last.Some? then es + [Deliver(last.value)] else es
  }

  // ---- Nothing is committed past -------------------------------------------------------------

  ghost predicate Failed(log: seq<Item>, off: nat, k: nat, n: nat) {
    k + n <= |log| && forall j :: k <= j < k + n ==> log[j] == Got(off, false)
  }

  /** The message has succeeded once, or failed five times in a row. */
  ghost predicate Resolved(log: seq<Item>, off: nat) {
    Got(off, true) in log || exists k :: 0 <= k && Failed(log, off, k, MAX_POISON)
  }

  /** first: where the consumer group began. */
  ghost predicate Inv(w: World, first: nat) {
    && first <= w.committed <= w.position
    && (forall off :: first <= off < w.position ==> Resolved(w.log, off))
    && (w.poisonCount == 0 ==> w.poisonOffset == -1)
    && (w.poisonCount > 0 ==> w.poisonCount < MAX_POISON && 0 <= w.poisonOffset <= w.position
                              && w.poisonCount <= |w.log| && Failed(w.log, w.poisonOffset, |w.log| - w.poisonCount, w.poisonCount))
    && Streak(w.log, w.position) == Failures(w)
  }

  /** How many deliveries at the end of the log are failures of this message. */
  function Streak(log: seq<Item>, off: nat): nat {
    if log == [] || log[|log| - 1] != Got(off, false) then 0 else Streak(log[..|log| - 1], off) + 1
  }

  /** What the poison counter says of the message to be fetched next. */
  function Failures(w: World): nat { if w.poisonOffset == w.position then w.poisonCount else 0 }

  /** The seek back fails, after a failure that is not the last one allowed, for a message that nothing
      had resolved before. */
  ghost predicate Skips(w: World, e: Event) {
    && e.Deliver? && !e.o.ok && !e.o.seeks && Failures(w) + 1 < MAX_POISON
    && !Resolved(w.log, w.position)
  }

  lemma {:induction false} StreakIsAtLeast(log: seq<Item>, off: nat, n: nat)
    requires n <= |log| && Failed(log, off, |log| - n, n)
    ensures Streak(log, off) >= n
    decreases n
  {
    if n > 0 { StreakIsAtLeast(log[..|log| - 1], off, n - 1); }
  }

  /** A failure that is not the fifth in a row resolves nothing. */
  lemma FewFailuresResolveNothing(log: seq<Item>, off: nat)
    requires Streak(log, off) + 1 < MAX_POISON
    ensures Resolved(log + [Got(off, false)], off) <==> Resolved(log, off)
  {
    var log' := log + [Got(off, false)];
    assert log'[..|log|] == log;
    if Resolved(log, off) { ResolvedStays(log, Got(off, false), off); }
    forall k | 0 <= k && Failed(log', off, k, MAX_POISON) ensures Failed(log, off, k, MAX_POISON) {
      if k + MAX_POISON == |log'| { StreakIsAtLeast(log', off, MAX_POISON); }
    }
  }

  lemma ResolvedStays(log: seq<Item>, x: Item, off: nat)
    requires Resolved(log, off)
    ensures Resolved(log + [x], off)
  {
    if Got(off, true) in log {
      assert Got(off, true) in log + [x];
    } else {
      var k :| 0 <= k && Failed(log, off, k, MAX_POISON);
      assert Failed(log + [x], off, k, MAX_POISON);
    }
  }

  /** The failures in a row, after one more. */
  lemma OneMoreFailure(w: World, first: nat)
    requires Inv(w, first)
    ensures var n, log := if w.position == w.poisonOffset then w.poisonCount + 1 else 1, w.log + [Got(w.position, false)];
      n <= |log| && Failed(log, w.position, |log| - n, n)
      && (n >= MAX_POISON ==> Resolved(log, w.position))
  {
    var n, log := if w.position == w.poisonOffset then w.poisonCount + 1 else 1, w.log + [Got(w.position, false)];
    if n >= MAX_POISON { assert Failed(log, w.position, |log| - n, MAX_POISON); }
  }

  /** Every message before the position has been resolved, and this goes on holding through
      failures, failed commits and restarts, until a seek back fails. */
  lemma StepKeepsInv(w: World, e: Event, first: nat)
    requires Inv(w, first)
    ensures Inv(Step(w, e), first) <==> !Skips(w, e)
  {
    var w' := Step(w, e);
    var x := if e.Deliver? then Got(w.position, e.o.ok) else Restarted;
    assert w'.log == w.log + [x] && w'.log[..|w.log|] == w.log;
    forall off | first <= off < w.position ensures Resolved(w'.log, off) { ResolvedStays(w.log, x, off); }
    if e.Deliver? {
      if e.o.ok {
        assert w'.log[|w.log|] == Got(w.position, true);
      } else {
        OneMoreFailure(w, first);
        if Failures(w) + 1 < MAX_POISON { FewFailuresResolveNothing(w.log, w.position); }
      }
    }
  }

  ghost predicate Legal(w: World, es: seq<Event>)
    decreases |es|
  { es == [] || (Legal(w, es[..|es| - 1]) && !Skips(Run(w, es[..|es| - 1]), es[|es| - 1])) }

  lemma {:induction false} RunKeepsInv(first: nat, es: seq<Event>)
    requires Legal(Start(first), es)
    ensures Inv(Run(Start(first), es), first)
    decreases |es|
  {
    if es != [] {
      RunKeepsInv(first, es[..|es| - 1]);
      StepKeepsInv(Run(Start(first), es[..|es| - 1]), es[|es| - 1], first);
    }
  }

  /** Whatever the callbacks do, whatever commits fail and whenever the process restarts: the
      committed offset has passed only messages that succeeded once or failed five times in a
      row. */
  lemma CommittedIsResolved(first: nat, es: seq<Event>, off: nat)
    requires Legal(Start(first), es) && first <= off < Run(Start(first), es).committed
    ensures Resolved(Run(Start(first), es).log, off)
  { RunKeepsInv(first, es); }

  // ---- What a commit moves -------------------------------------------------------------------

  /** In every run: the counter is the streak of failures of the next message, fewer than five, and the
      committed offset is not past the position. */
  ghost predicate Counting(w: World) {
    && w.committed <= w.position && w.poisonCount < 5 && (w.poisonCount == 0 ==> w.poisonOffset == -1)
    && Streak(w.log, w.position) == Failures(w)
  }

  lemma {:induction false} RunCounts(first: nat, es: seq<Event>)
    ensures Counting(Run(Start(first), es))
    decreases |es|
  {
    if es != [] {
      var w, e := Run(Start(first), es[..|es| - 1]), es[|es| - 1];
      RunCounts(first, es[..|es| - 1]);
      var x := if e.Deliver? then Got(w.position, e.o.ok) else Restarted;
      assert Step(w, e).log == w.log + [x] && (w.log + [x])[..|w.log|] == w.log;
    }
  }

  /** Whatever seeks and commits failed before: a delivery moves the committed offset exactly if its commit
      works and it is a success or the fifth failure in a row; it then is the offset after the message, where
      the loop goes on and a restart resumes. Otherwise it stays, and a failure with a working seek is
      fetched again. */
  lemma ACommitPassesTheMessage(first: nat, es: seq<Event>, o: Outcome)
    ensures var w := Run(Start(first), es);
      var w', off, over := Step(w, Deliver(o)), w.position, o.ok || Streak(w.log, w.position) == 4;
      && w'.committed == (if o.commits && over then off + 1 else w.committed)
      && w'.position == (if over || !o.seeks then off + 1 else off)
      && Step(w', Restart).position == w'.committed
  {
    RunCounts(first, es);
  }

  // ---- Between restarts ----------------------------------------------------------------------

  /** How often the message was delivered, from the n-th item of the log on. */
  function Times(log: seq<Item>, n: nat, off: nat): nat {
    if |log| <= n then 0
    else Times(log[..|log| - 1], n, off) + if log[|log| - 1].Got? && log[|log| - 1].offset == off then 1 else 0
  }

  ghost predicate InOrder(log: seq<Item>, n: nat, first: nat) {
    && (forall j :: n <= j < |log| ==> log[j].Got?)
    && (n < |log| ==> log[n].offset == first)
    && (forall j :: n <= j < |log| - 1 ==> log[j].offset <= log[j + 1].offset <= log[j].offset + 1)
  }

  /** A session from w, its counter clear, after some deliveries: the order so far. */
  ghost predicate Ordered(w: World, v: World) {
    && |w.log| <= |v.log| && w.position <= v.position
    && InOrder(v.log, |w.log|, w.position)
    && (|w.log| < |v.log| ==> v.log[|v.log| - 1].Got? && v.log[|v.log| - 1].offset <= v.position <= v.log[|v.log| - 1].offset + 1)
    && (|w.log| == |v.log| ==> v.position == w.position)
  }

  /** How often each message has been delivered in it. */
  ghost predicate Bounded(w: World, v: World) {
    && |w.log| <= |v.log|
    && (v.poisonCount == 0 ==> v.poisonOffset == -1)
    && v.poisonCount < MAX_POISON
    && (forall off :: Times(v.log, |w.log|, off) <= MAX_POISON)
    && (forall off :: off > v.position ==> Times(v.log, |w.log|, off) == 0)
    && Times(v.log, |w.log|, v.position) == Failures(v)
    && |v.log| - |w.log| <= MAX_POISON * (v.position - w.position) + Failures(v)
  }

  ghost predicate Session(w: World, v: World) { Ordered(w, v) && Bounded(w, v) }

  lemma DeliverKeepsOrder(w: World, v: World, o: Outcome)
    requires Ordered(w, v)
    ensures Ordered(w, Delivered(v, o))
  {
    var log' := Delivered(v, o).log;
    assert forall j :: 0 <= j < |v.log| ==> log'[j] == v.log[j];
    forall j | |w.log| <= j < |log'| - 1 ensures log'[j].offset <= log'[j + 1].offset <= log'[j].offset + 1 {
      assert j < |v.log| - 1 || j == |v.log| - 1;
    }
  }

  lemma DeliverKeepsBounds(w: World, v: World, o: Outcome)
    requires Bounded(w, v)
    ensures Bounded(w, Delivered(v, o))
  {
    var v', n := Delivered(v, o), |w.log|;
    assert v'.log[..|v.log|] == v.log;
    forall off ensures Times(v'.log, n, off) == Times(v.log, n, off) + if off == v.position then 1 else 0 {}
    assert Times(v'.log, n, v.position) == Failures(v) + 1;
  }

  lemma {:induction false} SessionRuns(w: World, es: seq<Event>)
    requires w.poisonCount == 0 && w.poisonOffset == -1 && forall e :: e in es ==> e.Deliver?
    ensures Session(w, Run(w, es)) && |Run(w, es).log| == |w.log| + |es|
    decreases |es|
  {
    if es != [] {
      assert es[|es| - 1] in es;
      SessionRuns(w, es[..|es| - 1]);
      DeliverKeepsOrder(w, Run(w, es[..|es| - 1]), es[|es| - 1].o);
      DeliverKeepsBounds(w, Run(w, es[..|es| - 1]), es[|es| - 1].o);
    }
  }

  /** From one restart to the next, and with any failures, seeks and commits included: messages
      are delivered in order from the committed one on, each at most five times, and a poison
      message delays the ones after it by no more than that. */
  lemma BetweenRestarts(w: World, es: seq<Event>)
    requires forall e :: e in es ==> e.Deliver?
    ensures var w0 := Step(w, Restart);
      var w' := Run(w0, es);
      && InOrder(w'.log, |w0.log|, w.committed)
      && (forall off :: Times(w'.log, |w0.log|, off) <= MAX_POISON)
      && |es| < MAX_POISON * (w'.position - w.committed + 1)
  {
    SessionRuns(Step(w, Restart), es);
  }

  /** A failed seek is not harmless: the next success commits over the failure. */
  lemma AFailedSeekLosesTheMessage(first: nat)
    ensures var w := Run(Start(first), [Deliver(Outcome(false, true, false)), Deliver(Outcome(true, true, true))]);
      w.committed == first + 2 && !Resolved(w.log, first)
  {
    var a, b := Deliver(Outcome(false, true, false)), Deliver(Outcome(true, true, true));
    assert [a, b][..1] == [a] && [a][..0] == [];
    assert Run(Start(first), [a]) == Step(Run(Start(first), []), a);
    assert Run(Start(first), [a, b]).log == [Got(first, false), Got(first + 1, true)];
  }
}
