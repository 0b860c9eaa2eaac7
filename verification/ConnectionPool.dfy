/** The database connection pool. Threads acquire, wait on a condition variable, connect outside
    the lock and release; each step is one stretch of code under the pool's mutex. */
module ConnectionPool {
  import opened Wrappers

  type Conn = nat
  type Thread = string

  /** What the mutex guards: the queue of idle connections and the count of active ones. */
  datatype Slots = Slots(size: nat, available: seq<Conn>, active: int) {
    /** As the code asks it. */
    predicate CanProceed() { available != [] || |available| + active < size }

    /** Past the wait: a queued connection, or (`None`) a slot to connect in. */
    function Taken(): (Slots, Option<Conn>) {
      if available != [] then (this.(available := available[1..], active := active + 1), Some(available[0]))
      else (this.(active := active + 1), None)
    }

    function Dropped(): Slots { this.(active := active - 1) }

    function Returned(c: Conn, open: bool): Slots {
      this.(available := if open then available + [c] else available, active := active - 1)
    }
  }

  /** The pool itself: each method is what one call does while it holds the mutex. */
  class Pool {
    const size: nat
    var available: seq<Conn>
    var active: int

    function View(): Slots reads this { Slots(size, available, active) }

    constructor (size: nat)
      ensures View() == Full(size)
    {
      this.size := size;
      active := 0;
      available := [];
      new;
      for i := 0 to size
        invariant active == 0 && available == seq(i, k requires 0 <= k < i => k as Conn)
      {
        available := available + [i];
      }
    }

    /** acquire, once the lock is held: `None` while it has to wait, `Some(None)` when the caller
        is to open a connection in the slot it was given. */
    method TryAcquire() returns (r: Option<Option<Conn>>)
      modifies this
      ensures r.Some? <==> old(View().CanProceed())
      ensures r.Some? ==> (View(), r.value) == old(View().Taken())
      ensures r.None? ==> View() == old(View())
    {
      if available == [] && |available| + active >= size { return None; }
      if available != [] {
        var c := available[0];
        available := available[1..];
        active := active + 1;
        return Some(Some(c));
      }
      active := active + 1;
      return Some(None);
    }

    method ConnectFailed()
      modifies this
      ensures View() == old(View()).Dropped()
    { active := active - 1; }

    method Release(c: Conn, open: bool)
      modifies this
      ensures View() == old(View()).Returned(c, open)
    {
      if open { available := available + [c]; }
      active := active - 1;
    }
  }

  function Full(size: nat): Slots { Slots(size, seq(size, k requires 0 <= k < size => k as Conn), 0) }

  // ---- Threads -------------------------------------------------------------------------------

  /** Woken: notified, and about to look at the pool again. */
  datatype State = Idle | Sleeping | Woken | Connecting | Holding(conn: Conn)

  /** next: the connection that the server will open next. */
  datatype World = World(slots: Slots, threads: map<Thread, State>, next: Conn) {
    function StateOf(t: Thread): State { if t in threads then threads[t] else Idle }
    function To(t: Thread, x: State): World { this.(threads := threads[t := x]) }
  }

  ghost function Busy(w: World): set<Thread> { set t | t in w.threads && (w.threads[t].Connecting? || w.threads[t].Holding?) }

  ghost function Sleepers(w: World): set<Thread> { set t | t in w.threads && w.threads[t].Sleeping? }

  ghost function Awake(w: World): set<Thread> { set t | t in w.threads && w.threads[t].Woken? }

  datatype Event =
    | Acquire(t: Thread)
    | Wake(t: Thread)
    | Timeout(t: Thread)
    | Connected(t: Thread)
    | ConnectFailed(t: Thread, notified: Option<Thread>)
    | Release(t: Thread, open: bool, notified: Option<Thread>)

  /** notify_one: some sleeper if there is one. */
  ghost predicate Notifies(w: World, n: Option<Thread>) {
    match n
    case Some(t) => t in Sleepers(w)
    case None => Sleepers(w) == {}
  }

  /** A wait may end by a notification, spuriously, or by its timeout. */
  ghost predicate Enabled(w: World, e: Event) {
    match e
    case Acquire(t) => w.StateOf(t).Idle?
    case Wake(t) => w.StateOf(t).Sleeping? || w.StateOf(t).Woken?
    case Timeout(t) => w.StateOf(t).Sleeping? || w.StateOf(t).Woken?
    case Connected(t) => w.StateOf(t).Connecting?
    case ConnectFailed(t, n) => w.StateOf(t).Connecting? && Notifies(w, n)
    case Release(t, _, n) => w.StateOf(t).Holding? && Notifies(w, n)
  }

  function Notified(w: World, n: Option<Thread>): World { if n.Some? then w.To(n.value, Woken) else w }

  /** Taking a connection or a slot if the pool allows it; otherwise the thread goes to `instead`. */
  function TakeOr(w: World, t: Thread, instead: State): World {
    if !w.slots.CanProceed() then w.To(t, instead)
    else var (s, c) := w.slots.Taken(); w.(slots := s).To(t, if c.Some? then Holding(c.value) else Connecting)
  }

  ghost function Step(w: World, e: Event): World {
    if !Enabled(w, e) then w else
    match e
    case Acquire(t) => TakeOr(w, t, Sleeping)
    case Wake(t) => TakeOr(w, t, Sleeping)
    case Timeout(t) => TakeOr(w, t, Idle)
    case Connected(t) => w.To(t, Holding(w.next)).(next := w.next + 1)
    case ConnectFailed(t, n) => Notified(w.To(t, Idle), n).(slots := w.slots.Dropped())
    case Release(t, open, n) => Notified(w.To(t, Idle), n).(slots := w.slots.Returned(w.threads[t].conn, open))
  }

  ghost function Run(w: World, es: seq<Event>): World
    decreases |es|
  { if es == [] then w else Step(Run(w, es[..|es| - 1]), es[|es| - 1]) }

  function Boot(size: nat): World { World(Full(size), map[], size) }

  // ---- What always holds ---------------------------------------------------------------------

  /** The counter counts the threads that hold or are opening a connection, and there are never
      more connections than slots. */
  ghost predicate Counted(w: World) {
    w.slots.active == |Busy(w)| && |w.slots.available| + w.slots.active <= w.slots.size
  }

  /** No connection is in two places. */
  ghost predicate Distinct(w: World) {
    && (forall i, j :: 0 <= i < j < |w.slots.available| ==> w.slots.available[i] != w.slots.available[j])
    && (forall c :: c in w.slots.available ==> c < w.next)
    && (forall t :: t in w.threads && w.threads[t].Holding? ==> w.threads[t].conn < w.next && w.threads[t].conn !in w.slots.available)
    && (forall t, u :: t in w.threads && u in w.threads && t != u && w.threads[t].Holding? && w.threads[u].Holding? ==>
          w.threads[t].conn != w.threads[u].conn)
  }

  /** While anyone sleeps, there are at least as many woken threads as free slots. */
  ghost predicate NoLostWakeup(w: World) {
    Sleepers(w) != {} ==> w.slots.size - w.slots.active <= |Awake(w)|
  }

  ghost predicate Inv(w: World) { Counted(w) && Distinct(w) && NoLostWakeup(w) }

  /** The two-part test that acquire makes is one comparison. */
  lemma CanProceedMeansAFreeSlot(w: World)
    requires Counted(w)
    ensures w.slots.CanProceed() <==> w.slots.active < w.slots.size
    ensures w.slots.CanProceed() <==> |Busy(w)| < w.slots.size
  {}

  lemma SetsAfter(w: World, t: Thread, x: State)
    ensures Busy(w.To(t, x)) == if x.Connecting? || x.Holding? then Busy(w) + {t} else Busy(w) - {t}
    ensures Sleepers(w.To(t, x)) == if x.Sleeping? then Sleepers(w) + {t} else Sleepers(w) - {t}
    ensures Awake(w.To(t, x)) == if x.Woken? then Awake(w) + {t} else Awake(w) - {t}
  {}

  lemma NotifiedSets(w: World, t: Thread, n: Option<Thread>)
    requires (w.StateOf(t).Connecting? || w.StateOf(t).Holding?) && Notifies(w, n)
    ensures var w' := Notified(w.To(t, Idle), n);
      && Busy(w') == Busy(w) - {t} && t in Busy(w)
      && (n.Some? ==> Awake(w') == Awake(w) + {n.value} && n.value !in Awake(w))
      && (n.None? ==> Sleepers(w') == {})
  {
    SetsAfter(w, t, Idle);
    if n.Some? {
      assert w.threads[n.value].Sleeping?;
      SetsAfter(w.To(t, Idle), n.value, Woken);
    }
  }

  /** Giving a slot back: one busy thread fewer, and one more awake or nobody asleep. */
  lemma GiveBackKeeps(w: World, t: Thread, n: Option<Thread>, s: Slots)
    requires Counted(w) && NoLostWakeup(w) && (w.StateOf(t).Connecting? || w.StateOf(t).Holding?) && Notifies(w, n)
    requires s.size == w.slots.size && s.active == w.slots.active - 1 && |s.available| <= |w.slots.available| + 1
    ensures Counted(Notified(w.To(t, Idle), n).(slots := s)) && NoLostWakeup(Notified(w.To(t, Idle), n).(slots := s))
  {
    var w' := Notified(w.To(t, Idle), n);
    NotifiedSets(w, t, n);
    assert |Busy(w')| == |Busy(w)| - 1;
    assert n.Some? ==> |Awake(w')| == |Awake(w)| + 1 && n.value in Sleepers(w);
    assert Busy(w'.(slots := s)) == Busy(w') && Sleepers(w'.(slots := s)) == Sleepers(w') && Awake(w'.(slots := s)) == Awake(w');
  }

  lemma TakingKeeps(w: World, t: Thread)
    requires Counted(w) && NoLostWakeup(w) && t !in Busy(w) && w.slots.CanProceed()
    ensures var (s, c) := w.slots.Taken();
      var w' := w.To(t, if c.Some? then Holding(c.value) else Connecting).(slots := s);
      Counted(w') && NoLostWakeup(w')
  {
    var (s, c) := w.slots.Taken();
    var w1 := w.To(t, if c.Some? then Holding(c.value) else Connecting);
    SetsAfter(w, t, if c.Some? then Holding(c.value) else Connecting);
    assert |Awake(w1)| >= |Awake(w)| - 1;
    assert Sleepers(w) == {} ==> Sleepers(w1) == {};
    assert Busy(w1.(slots := s)) == Busy(w1) && Sleepers(w1.(slots := s)) == Sleepers(w1) && Awake(w1.(slots := s)) == Awake(w1);
  }

  lemma TakeKeeps(w: World, t: Thread, instead: State)
    requires Counted(w) && NoLostWakeup(w) && !w.StateOf(t).Connecting? && !w.StateOf(t).Holding?
    requires instead.Idle? || instead.Sleeping?
    ensures Counted(TakeOr(w, t, instead)) && NoLostWakeup(TakeOr(w, t, instead))
  {
    assert t !in Busy(w);
    if w.slots.CanProceed() {
      TakingKeeps(w, t);
    } else {
      SetsAfter(w, t, instead);
      assert Busy(w) - {t} == Busy(w);
    }
  }

  lemma ConnectKeeps(w: World, t: Thread)
    requires Counted(w) && NoLostWakeup(w) && w.StateOf(t).Connecting?
    ensures Counted(Step(w, Connected(t))) && NoLostWakeup(Step(w, Connected(t)))
  {
    var w' := Step(w, Connected(t));
    assert Busy(w') == Busy(w) && Sleepers(w') == Sleepers(w) && Awake(w') == Awake(w);
  }

  lemma StepCounts(w: World, e: Event)
    requires Counted(w) && NoLostWakeup(w)
    ensures Counted(Step(w, e)) && NoLostWakeup(Step(w, e))
  {
    if Enabled(w, e) {
      match e
      case Acquire(t) => TakeKeeps(w, t, Sleeping);
      case Wake(t) => TakeKeeps(w, t, Sleeping);
      case Timeout(t) => TakeKeeps(w, t, Idle);
      case Connected(t) => ConnectKeeps(w, t);
      case ConnectFailed(t, n) => GiveBackKeeps(w, t, n, w.slots.Dropped());
      case Release(t, open, n) => GiveBackKeeps(w, t, n, w.slots.Returned(w.threads[t].conn, open));
    }
  }

  lemma StepIsDistinct(w: World, e: Event)
    requires Distinct(w)
    ensures Distinct(Step(w, e))
  {
    var w' := Step(w, e);
    if Enabled(w, e) {
      match e
      case Acquire(t) => TakeIsDistinct(w, t, Sleeping);
      case Wake(t) => TakeIsDistinct(w, t, Sleeping);
      case Timeout(t) => TakeIsDistinct(w, t, Idle);
      case Connected(t) =>
      case ConnectFailed(t, n) =>
      case Release(t, open, n) => ReleaseIsDistinct(w, t, open, n);
    }
  }

  lemma TakeIsDistinct(w: World, t: Thread, instead: State)
    requires Distinct(w) && !instead.Holding?
    ensures Distinct(TakeOr(w, t, instead))
  {
    if w.slots.CanProceed() && w.slots.available != [] {
      var (s, c) := w.slots.Taken();
      assert w.slots.available[0] in w.slots.available;
      forall x | x in s.available ensures x in w.slots.available && x != c.value {
        var i :| 0 <= i < |s.available| && s.available[i] == x;
        assert w.slots.available[i + 1] == x;
      }
    }
  }

  lemma ReleaseIsDistinct(w: World, t: Thread, open: bool, n: Option<Thread>)
    requires Distinct(w) && Enabled(w, Release(t, open, n))
    ensures Distinct(Step(w, Release(t, open, n)))
  {
    var w' := Step(w, Release(t, open, n));
    var c := w.threads[t].conn;
    forall u | u in w'.threads && w'.threads[u].Holding?
      ensures u != t && w'.threads[u] == w.threads[u] && u in w.threads && w.threads[u].conn != c {}
  }

  lemma StepKeepsInv(w: World, e: Event)
    requires Inv(w)
    ensures Inv(Step(w, e))
  {
    StepCounts(w, e);
    StepIsDistinct(w, e);
  }

  /** Under every interleaving of acquires, wake-ups, timeouts, connects that succeed or fail, and
      releases of open or broken connections. */
  lemma {:induction false} RunKeepsInv(size: nat, es: seq<Event>)
    ensures Inv(Run(Boot(size), es)) && Run(Boot(size), es).slots.size == size
    decreases |es|
  {
    if es == [] {
      assert Busy(Boot(size)) == {} && Sleepers(Boot(size)) == {};
    } else {
      RunKeepsInv(size, es[..|es| - 1]);
      StepKeepsInv(Run(Boot(size), es[..|es| - 1]), es[|es| - 1]);
    }
  }

  /** The counter never underflows: a step that takes one off finds one there. */
  lemma NoUnderflow(size: nat, es: seq<Event>, e: Event)
    requires (e.ConnectFailed? || e.Release?) && Enabled(Run(Boot(size), es), e)
    ensures Run(Boot(size), es).slots.active > 0
  {
    var w := Run(Boot(size), es);
    RunKeepsInv(size, es);
    assert e.t in Busy(w);
  }

  /** A pool that nobody holds anything of lets an acquire proceed, however many of its
      connections have broken; otherwise an acquire waits only when every slot is in use. */
  lemma TheNextAcquireProceeds(size: nat, es: seq<Event>, t: Thread)
    requires Run(Boot(size), es).StateOf(t).Idle?
    ensures var w := Run(Boot(size), es);
      Step(w, Acquire(t)).StateOf(t).Sleeping? <==> |Busy(w)| == size
    ensures var w := Run(Boot(size), es);
      Busy(w) == {} && size > 0 ==> !Step(w, Acquire(t)).StateOf(t).Sleeping?
  {
    RunKeepsInv(size, es);
    CanProceedMeansAFreeSlot(Run(Boot(size), es));
  }

  /** Every step that makes the pool able to proceed wakes a sleeper, if there is one. */
  lemma FreeingNotifies(size: nat, es: seq<Event>, e: Event)
    requires var w := Run(Boot(size), es); !w.slots.CanProceed() && Step(w, e).slots.CanProceed() && Sleepers(w) != {}
    ensures var w := Run(Boot(size), es); exists t :: t in Sleepers(w) && Step(w, e).StateOf(t).Woken?
  {
    var w := Run(Boot(size), es);
    RunKeepsInv(size, es);
    assert e.ConnectFailed? || e.Release?;
    var t := e.notified.value;
    assert t in Sleepers(w) && Step(w, e).StateOf(t).Woken?;
  }

  /** No thread is left asleep beside a free slot: another one has been woken, and it takes a slot
      as soon as it runs. */
  lemma NobodyIsLeftAsleep(size: nat, es: seq<Event>, t: Thread)
    requires var w := Run(Boot(size), es); w.StateOf(t).Sleeping? && w.slots.CanProceed()
    ensures var w := Run(Boot(size), es);
      exists u :: w.StateOf(u).Woken? && (Step(w, Wake(u)).StateOf(u).Holding? || Step(w, Wake(u)).StateOf(u).Connecting?)
  {
    var w := Run(Boot(size), es);
    RunKeepsInv(size, es);
    CanProceedMeansAFreeSlot(w);
    assert t in Sleepers(w);
    assert Awake(w) != {};
    var u :| u in Awake(w);
    assert w.StateOf(u).Woken?;
  }

  /** A connection that a thread holds is held by no other thread and is not in the queue. */
  lemma NoSharing(size: nat, es: seq<Event>, t: Thread, u: Thread)
    requires var w := Run(Boot(size), es); w.StateOf(t).Holding? && (w.StateOf(u).Holding? && w.threads[u].conn == w.threads[t].conn)
    ensures t == u && Run(Boot(size), es).threads[t].conn !in Run(Boot(size), es).slots.available
  {
    RunKeepsInv(size, es);
  }

  // ---- What becomes of a released connection ---------------------------------------------------

  ghost predicate HeldBy(w: World, t: Thread, c: Conn) { t in w.threads && w.threads[t] == Holding(c) }

  /** Opened once, and now neither queued nor held. */
  ghost predicate Gone(w: World, c: Conn) {
    c < w.next && c !in w.slots.available && forall t :: !HeldBy(w, t, c)
  }

  lemma StepKeepsGone(w: World, e: Event, c: Conn)
    requires Gone(w, c)
    ensures Gone(Step(w, e), c)
  {
    var w' := Step(w, e);
    forall t ensures !HeldBy(w', t, c) { assert !HeldBy(w, t, c); }
    if e.Release? { assert !HeldBy(w, e.t, c); }
  }

  lemma {:induction false} GoneForGood(w: World, es: seq<Event>, c: Conn)
    requires Gone(w, c)
    ensures Gone(Run(w, es), c)
    decreases |es|
  {
    if es != [] {
      GoneForGood(w, es[..|es| - 1], c);
      StepKeepsGone(Run(w, es[..|es| - 1]), es[|es| - 1], c);
    }
  }

  /** A connection released broken is never queued and never held again. */
  lemma ABrokenConnectionIsGone(size: nat, es: seq<Event>, t: Thread, n: Option<Thread>, later: seq<Event>)
    requires Enabled(Run(Boot(size), es), Release(t, false, n))
    ensures var w := Run(Boot(size), es);
      var w' := Run(Step(w, Release(t, false, n)), later);
      w.threads[t].conn !in w'.slots.available && forall u :: w'.StateOf(u) != Holding(w.threads[t].conn)
  {
    var w := Run(Boot(size), es);
    var c, w1 := w.threads[t].conn, Step(w, Release(t, false, n));
    RunKeepsInv(size, es);
    forall u ensures !HeldBy(w1, u, c) {}
    GoneForGood(w1, later, c);
    var w' := Run(w1, later);
    forall u ensures w'.StateOf(u) != Holding(c) { assert !HeldBy(w', u, c); }
  }

  /** The step hands connection c, which was queued first, to the thread that asks. */
  ghost predicate HandsOver(w: World, e: Event, c: Conn) {
    && (e.Acquire? || e.Wake? || e.Timeout?) && Enabled(w, e)
    && w.slots.available != [] && w.slots.available[0] == c
    && Step(w, e).StateOf(e.t) == Holding(c) && Step(w, e).slots.available == w.slots.available[1..]
  }

  lemma QueuedUntilHandedOver(w: World, e: Event, c: Conn)
    requires c in w.slots.available
    ensures c in Step(w, e).slots.available || HandsOver(w, e, c)
  {
    if c != w.slots.available[0] { assert c in w.slots.available[1..]; }
  }

  /** A connection released open joins the end of the queue, and stays queued until a thread that asks
      for one gets it from the front. */
  lemma {:induction false} AnOpenConnectionWaitsForAThread(w: World, t: Thread, n: Option<Thread>, later: seq<Event>)
      returns (i: nat)
    requires Enabled(w, Release(t, true, n))
    ensures var w1, c := Step(w, Release(t, true, n)), w.threads[t].conn;
      && w1.slots.available == w.slots.available + [c]
      && (c in Run(w1, later).slots.available || (i < |later| && HandsOver(Run(w1, later[..i]), later[i], c)))
    decreases |later|
  {
    i := 0;
    var w1, c := Step(w, Release(t, true, n)), w.threads[t].conn;
    if later == [] {
      assert (w.slots.available + [c])[|w.slots.available|] == c;
    } else {
      var m := |later| - 1;
      i := AnOpenConnectionWaitsForAThread(w, t, n, later[..m]);
      if c in Run(w1, later[..m]).slots.available {
        QueuedUntilHandedOver(Run(w1, later[..m]), later[m], c);
        i := m;
      } else {
        assert later[..m][..i] == later[..i];
      }
    }
  }

  ghost function Opening(w: World): set<Thread> { set t | t in w.threads && w.threads[t].Connecting? }

  ghost predicate Breaks(w: World, e: Event) { e.Release? && !e.open && Enabled(w, e) }

  /** How many connections a run of events releases broken. */
  ghost function Broken(w: World, es: seq<Event>): nat
    decreases |es|
  {
    if es == [] then 0 else
      Broken(w, es[..|es| - 1]) + if Breaks(Run(w, es[..|es| - 1]), es[|es| - 1]) then 1 else 0
  }

  lemma OpeningAfter(w: World, t: Thread, x: State)
    ensures Opening(w.To(t, x)) == if x.Connecting? then Opening(w) + {t} else Opening(w) - {t}
  {}

  lemma NotifyingOpensNone(w: World, t: Thread, n: Option<Thread>)
    requires Notifies(w, n) && (w.StateOf(t).Connecting? || w.StateOf(t).Holding?)
    ensures Opening(Notified(w.To(t, Idle), n)) == Opening(w) - {t}
  {
    OpeningAfter(w, t, Idle);
    if n.Some? { OpeningAfter(w.To(t, Idle), n.value, Woken); }
  }

  /** Connections opened and under way, less those that there are. */
  ghost function Surplus(w: World): int { w.next + |Opening(w)| - |w.slots.available| - w.slots.active }

  lemma TakingReplacesNone(w: World, t: Thread, instead: State)
    requires !w.StateOf(t).Connecting? && !instead.Connecting?
    ensures Surplus(TakeOr(w, t, instead)) == Surplus(w) && TakeOr(w, t, instead).next == w.next
  {
    assert t !in Opening(w);
    var w' := TakeOr(w, t, instead);
    OpeningAfter(w, t, w'.StateOf(t));
    assert Opening(w') == Opening(w.To(t, w'.StateOf(t)));
    hide Opening;
  }

  lemma GivingBackReplaces(w: World, t: Thread, n: Option<Thread>, s: Slots)
    requires Notifies(w, n) && (w.StateOf(t).Connecting? || w.StateOf(t).Holding?)
    ensures Surplus(Notified(w.To(t, Idle), n).(slots := s))
         == w.next + |Opening(w)| - (if w.StateOf(t).Connecting? then 1 else 0) - |s.available| - s.active
  {
    NotifyingOpensNone(w, t, n);
    assert Opening(Notified(w.To(t, Idle), n).(slots := s)) == Opening(w) - {t};
    assert t in Opening(w) <==> w.StateOf(t).Connecting?;
    hide Opening;
  }

  lemma StepReplaces(w: World, e: Event)
    ensures Surplus(Step(w, e)) == Surplus(w) + if Breaks(w, e) then 1 else 0
    ensures Step(w, e).next >= w.next
  {
    if Enabled(w, e) {
      match e
      case Acquire(t) => hide Surplus; TakingReplacesNone(w, t, Sleeping);
      case Wake(t) => hide Surplus; TakingReplacesNone(w, t, Sleeping);
      case Timeout(t) => hide Surplus; TakingReplacesNone(w, t, Idle);
      case Connected(t) =>
        OpeningAfter(w, t, Holding(w.next));
        assert Opening(Step(w, e)) == Opening(w) - {t} && t in Opening(w);
        hide Opening;
      case ConnectFailed(t, n) => GivingBackReplaces(w, t, n, w.slots.Dropped());
      case Release(t, open, n) => GivingBackReplaces(w, t, n, w.slots.Returned(w.threads[t].conn, open));
    }
  }

  /** Every connection opened after the boot, or under way, replaces one that broke or whose replacement
      failed to open: together they are as many as the broken ones and the free slots account for. While no
      connection breaks, none is opened. */
  lemma {:induction false} BrokenConnectionsAreReplaced(size: nat, es: seq<Event>)
    ensures var w := Run(Boot(size), es);
      && size <= w.next && w.next + |Opening(w)| == |w.slots.available| + w.slots.active + Broken(Boot(size), es)
      && w.next <= size + Broken(Boot(size), es)
    decreases |es|
  {
    RunKeepsInv(size, es);
    if es == [] {
      assert Opening(Boot(size)) == {};
    } else {
      BrokenConnectionsAreReplaced(size, es[..|es| - 1]);
      StepReplaces(Run(Boot(size), es[..|es| - 1]), es[|es| - 1]);
    }
  }

  lemma {:induction false} OpenReleasesBreakNone(w: World, es: seq<Event>)
    requires forall e :: e in es && e.Release? ==> e.open
    ensures Broken(w, es) == 0
    decreases |es|
  {
    if es != [] { OpenReleasesBreakNone(w, es[..|es| - 1]); }
  }

  /** While every release is open, no connection is opened after the boot and nobody goes to open one. */
  lemma OpenConnectionsAreReused(size: nat, es: seq<Event>)
    requires forall e :: e in es && e.Release? ==> e.open
    ensures Run(Boot(size), es).next == size && forall t :: !Run(Boot(size), es).StateOf(t).Connecting?
  {
    RunKeepsInv(size, es);
    OpenReleasesBreakNone(Boot(size), es);
    BrokenConnectionsAreReplaced(size, es);
    var w := Run(Boot(size), es);
    assert Opening(w) == {};
    forall t ensures !w.StateOf(t).Connecting? { assert t !in Opening(w); }
  }
}
