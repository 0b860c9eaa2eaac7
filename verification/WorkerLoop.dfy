/** The worker process: recovery at the start, and the loop of one worker thread. Both are proved
    to be runs of the protocol, so what holds of every run holds of them. */
module WorkerLoop {
  import opened Wrappers
  import opened JobModel
  import opened Backoff
  import opened JobQueue
  import opened Workers
  import opened Durability

  /** The two or three steps that a pick is made of. */
  function PickSteps(w: string, types: seq<string>, now: int, rec: Recording): seq<Event> {
    if |types| == 1 then [Pop(w, types), Claim(w, now)]
    else if rec.Done? then [Pop(w, types), Record(w), Claim(w, now)]
    else [Pop(w, types), RecordFailed(w, rec.Returned?)]
  }

  /** From s, these events are enabled one after the other and lead to s'. */
  ghost predicate Leads(cfg: Config, s: System, es: seq<Event>, s': System) {
    Proceeds(cfg, s, es) && Run(cfg, s, es) == s'
  }

  lemma LeadsOn(cfg: Config, s: System, es: seq<Event>, s': System, e: Event)
    requires Leads(cfg, s, es, s') && Enabled(cfg, s', e)
    ensures Leads(cfg, s, es + [e], Step(cfg, s', e))
  { assert (es + [e])[..|es|] == es; }

  lemma PutTwice(s: System, w: string, h: Hand, db: Store, k: Hand)
    ensures s.Put(w, h).With(db).Put(w, k) == s.With(db).Put(w, k)
  { assert s.hands[w := h][w := k] == s.hands[w := k]; }

  /** The claim, after the id is in the worker's list. */
  lemma ClaimFollows(cfg: Config, s: System, w: string, db: Store, id: Id, now: int)
    ensures var (db1, got) := Claimed(cfg, db, w, id, now);
      Step(cfg, s.With(db).Put(w, Recorded(id)), Claim(w, now)) ==
        s.With(db1).Put(w, if got.Some? then Running(id) else Idle)
  {
    var (db1, got) := Claimed(cfg, db, w, id, now);
    PutTwice(s.With(db), w, Recorded(id), db1, if got.Some? then Running(id) else Idle);
  }

  /** What a pick with nothing in between leaves behind: the store, and the job in the thread's
      hand if there is one. */
  function AfterPick(cfg: Config, s: System, w: string, types: seq<string>, now: int, rec: Recording): System {
    var (db, picked) := Picked(cfg, s.db, types, w, now, rec);
    s.With(db).Put(w, if picked.Some? then Running(picked.value.0) else Idle)
  }

  lemma SinglePick(cfg: Config, s: System, w: string, t: string, now: int, rec: Recording)
    requires w != "" && s.HandOf(w).Idle? && s.db.At(Queue(t)) != []
    ensures Leads(cfg, s, [Pop(w, [t]), Claim(w, now)], AfterPick(cfg, s, w, [t], now, rec))
  {
    var id := s.db.Tail(Queue(t));
    assert FirstNonEmpty(s.db, [t]) == Some(t);
    LeadsOn(cfg, s, [], s, Pop(w, [t]));
    ClaimFollows(cfg, s, w, Moved(s.db, t, w), id, now);
    LeadsOn(cfg, s, [] + [Pop(w, [t])], s.With(Moved(s.db, t, w)).Put(w, Recorded(id)), Claim(w, now));
    assert [] + [Pop(w, [t])] + [Claim(w, now)] == [Pop(w, [t]), Claim(w, now)];
  }

  lemma PopAndRecord(cfg: Config, s: System, w: string, types: seq<string>)
    requires w != "" && s.HandOf(w).Idle? && FirstNonEmpty(s.db, types).Some? && |types| != 1
    ensures var t := FirstNonEmpty(s.db, types).value;
      var id := s.db.Tail(Queue(t));
      Leads(cfg, s, [Pop(w, types), Record(w)], s.With(s.db.RPop(Queue(t)).RPush(InFlight(w), id)).Put(w, Recorded(id)))
  {
    var t := FirstNonEmpty(s.db, types).value;
    var id := s.db.Tail(Queue(t));
    var db1 := s.db.RPop(Queue(t));
    LeadsOn(cfg, s, [], s, Pop(w, types));
    PutTwice(s.With(db1), w, Bare(id, t), db1.RPush(InFlight(w), id), Recorded(id));
    LeadsOn(cfg, s, [] + [Pop(w, types)], s.With(db1).Put(w, Bare(id, t)), Record(w));
    assert [] + [Pop(w, types)] + [Record(w)] == [Pop(w, types), Record(w)];
  }

  lemma MultiPick(cfg: Config, s: System, w: string, types: seq<string>, now: int)
    requires w != "" && s.HandOf(w).Idle? && FirstNonEmpty(s.db, types).Some? && |types| != 1
    ensures Leads(cfg, s, [Pop(w, types), Record(w), Claim(w, now)], AfterPick(cfg, s, w, types, now, Done))
  {
    var t := FirstNonEmpty(s.db, types).value;
    var id := s.db.Tail(Queue(t));
    var db := s.db.RPop(Queue(t)).RPush(InFlight(w), id);
    PopAndRecord(cfg, s, w, types);
    ClaimFollows(cfg, s, w, db, id, now);
    LeadsOn(cfg, s, [Pop(w, types), Record(w)], s.With(db).Put(w, Recorded(id)), Claim(w, now));
    assert [Pop(w, types), Record(w)] + [Claim(w, now)] == [Pop(w, types), Record(w), Claim(w, now)];
  }

  lemma FailedPick(cfg: Config, s: System, w: string, types: seq<string>, now: int, rec: Recording)
    requires w != "" && s.HandOf(w).Idle? && FirstNonEmpty(s.db, types).Some? && |types| != 1 && !rec.Done?
    ensures Leads(cfg, s, [Pop(w, types), RecordFailed(w, rec.Returned?)], AfterPick(cfg, s, w, types, now, rec))
  {
    var t := FirstNonEmpty(s.db, types).value;
    var id := s.db.Tail(Queue(t));
    var db1 := s.db.RPop(Queue(t));
    LeadsOn(cfg, s, [], s, Pop(w, types));
    PutTwice(s.With(db1), w, Bare(id, t), if rec.Returned? then db1.RPush(Queue(t), id) else db1, Idle);
    LeadsOn(cfg, s, [] + [Pop(w, types)], s.With(db1).Put(w, Bare(id, t)), RecordFailed(w, rec.Returned?));
    assert [] + [Pop(w, types)] + [RecordFailed(w, rec.Returned?)] == [Pop(w, types), RecordFailed(w, rec.Returned?)];
  }

  /** The queue's own pick is the protocol's steps in a row. */
  lemma PickIsItsSteps(cfg: Config, s: System, w: string, types: seq<string>, now: int, rec: Recording)
    requires w != "" && s.HandOf(w).Idle? && FirstNonEmpty(s.db, types).Some?
    ensures Leads(cfg, s, PickSteps(w, types, now, rec), AfterPick(cfg, s, w, types, now, rec))
  {
    if |types| == 1 {
      assert types == [types[0]];
      SinglePick(cfg, s, w, types[0], now, rec);
    } else if rec.Done? {
      MultiPick(cfg, s, w, types, now);
    } else {
      FailedPick(cfg, s, w, types, now, rec);
    }
  }

  lemma LastStep(cfg: Config, s: System, es: seq<Event>, s': System)
    requires Leads(cfg, s, es, s') && es != []
    ensures var front, e := es[..|es| - 1], es[|es| - 1];
      var last := Run(cfg, s, front);
      Leads(cfg, s, front, last) && Enabled(cfg, last, e) && s' == Step(cfg, last, e)
  {}

  lemma {:induction false} LeadsFurther(cfg: Config, s: System, es: seq<Event>, mid: System, more: seq<Event>, s': System)
    requires Leads(cfg, s, es, mid) && Leads(cfg, mid, more, s')
    ensures Leads(cfg, s, es + more, s')
    decreases |more|
  {
    hide Step, Enabled;
    if more == [] {
      assert es + more == es;
    } else {
      var front, e := more[..|more| - 1], more[|more| - 1];
      var last := Run(cfg, mid, front);
      LastStep(cfg, mid, more, s');
      LeadsFurther(cfg, s, es, mid, front, last);
      LeadsOn(cfg, s, es + front, last, e);
      assert es + front + [e] == es + more;
    }
  }

  // ---- The loop ------------------------------------------------------------------------------

  /** One turn of the loop: the clock as the promoter, the reaper, pick and the outcome see it, how a
      multi-type pick's recording goes, how the handler would end, and the error with which the
      storing of its result would fail. */
  datatype Turn = Turn(promote: int, reap: int, pick: int, rec: Recording, done: int, verdict: Verdict, fault: Option<string>)

  /** A result that cannot be stored is a failure of the job. */
  function Outcome(v: Verdict, fault: Option<string>): Verdict {
    if v.Success? && fault.Some? then Throws(fault.value) else v
  }

  /** What follows a picked job: complete, dead_letter or fail; and fail after a complete that throws. */
  method Settle(q: JobQueue, id: Id, v: Verdict, fault: Option<string>, now: int)
    modifies q
    ensures q.View() == Settled(q.cfg, old(q.View()), id, Outcome(v, fault), now)
  {
    match v
    case Success(result) =>
      var stored := false;
      if fault.None? { stored := q.Complete(id, result); }
      if !stored { var _ := q.Fail(id, if fault.Some? then fault.value else "Job not found: " + id, now); }
    case Permanent(error) => var _ := q.DeadLetter(id, error);
    case Throws(error) => var _ := q.Fail(id, error, now);
  }

  /** The ids that one turn's two sweeps went through, in the order they came in. */
  datatype Sweeps = Sweeps(due: seq<Id>, late: seq<Id>)

  function AfterSweeps(cfg: Config, db: Store, t: Turn, x: Sweeps): Store {
    ReapedAll(cfg, PromotedAll(db, x.due), x.late, t.reap)
  }

  ghost predicate SweepsAreDue(cfg: Config, db: Store, t: Turn, x: Sweeps) {
    && (if cfg.backoffBase > 0 then DueAt(x.due, db.delayed, t.promote) else x.due == [])
    && (if cfg.visibilityMs > 0 then DueAt(x.late, PromotedAll(db, x.due).leases, t.reap) else x.late == [])
  }

  function AfterWork(cfg: Config, db: Store, w: string, types: seq<string>, t: Turn): Store {
    var (db1, picked) := Picked(cfg, db, types, w, t.pick, t.rec);
    if picked.None? then db1 else Settled(cfg, db1, picked.value.0, Outcome(t.verdict, t.fault), t.done)
  }

  /** The store after these turns of the loop. */
  function AfterTurns(cfg: Config, db: Store, w: string, types: seq<string>, ts: seq<Turn>, xs: seq<Sweeps>): Store
    requires |xs| == |ts|
    decreases |ts|
  {
    if ts == [] then db else
      var n := |ts| - 1;
      AfterWork(cfg, AfterSweeps(cfg, AfterTurns(cfg, db, w, types, ts[..n], xs[..n]), ts[n], xs[n]), w, types, ts[n])
  }

  ghost predicate AllDue(cfg: Config, db: Store, w: string, types: seq<string>, ts: seq<Turn>, xs: seq<Sweeps>)
    requires |xs| == |ts|
    decreases |ts|
  {
    ts == [] ||
    var n := |ts| - 1;
    && AllDue(cfg, db, w, types, ts[..n], xs[..n])
    && SweepsAreDue(cfg, AfterTurns(cfg, db, w, types, ts[..n], xs[..n]), ts[n], xs[n])
  }

  /** The two sweeps at the head of a turn. es are the protocol's events that they are. */
  method Maintain(q: JobQueue, t: Turn, ghost s: System)
    returns (ghost x: Sweeps, ghost es: seq<Event>, ghost s': System)
    requires s.db == q.View()
    modifies q
    ensures SweepsAreDue(q.cfg, old(q.View()), t, x) && q.View() == AfterSweeps(q.cfg, old(q.View()), t, x)
    ensures s'.db == q.View() && s'.hands == s.hands && Leads(q.cfg, s, es, s')
  {
    es, s' := [], s;
    var _, due := q.PromoteDueJobs(t.promote);
    if q.cfg.backoffBase > 0 {
      LeadsOn(q.cfg, s, es, s', Promote(due, t.promote));
      es, s' := es + [Promote(due, t.promote)], Step(q.cfg, s', Promote(due, t.promote));
    }
    var _, late := q.ReapExpiredLeases(t.reap);
    if q.cfg.visibilityMs > 0 {
      LeadsOn(q.cfg, s, es, s', Reap(late, t.reap));
      es, s' := es + [Reap(late, t.reap)], Step(q.cfg, s', Reap(late, t.reap));
    }
    x := Sweeps(due, late);
  }

  method PickAndSettle(q: JobQueue, w: string, types: seq<string>, t: Turn, ghost s: System)
    returns (ghost es: seq<Event>, ghost s': System)
    requires w != "" && s.db == q.View() && s.HandOf(w).Idle?
    modifies q
    ensures q.View() == AfterWork(q.cfg, old(q.View()), w, types, t)
    ensures s'.db == q.View() && s'.HandOf(w).Idle? && Leads(q.cfg, s, es, s')
  {
    es, s' := [], s;
    var picked := q.Pick(types, w, t.pick, t.rec);
    if FirstNonEmpty(s.db, types).Some? {
      PickIsItsSteps(q.cfg, s, w, types, t.pick, t.rec);
      es, s' := PickSteps(w, types, t.pick, t.rec), AfterPick(q.cfg, s, w, types, t.pick, t.rec);
    }
    if picked.None? { return; }
    Settle(q, picked.value.0, t.verdict, t.fault, t.done);
    ghost var e := Finish(w, Outcome(t.verdict, t.fault), t.done);
    LeadsOn(q.cfg, s, es, s', e);
    es, s' := es + [e], Step(q.cfg, s', e);
  }

  /** worker_loop, until it is told to stop after these turns: what it leaves in the store, and that
      the protocol can do the same. */
  method Loop(q: JobQueue, w: string, types: seq<string>, turns: seq<Turn>, ghost s: System)
    returns (ghost xs: seq<Sweeps>, ghost es: seq<Event>, ghost s': System)
    requires w != "" && s.db == q.View() && s.HandOf(w).Idle?
    modifies q
    ensures |xs| == |turns| && AllDue(q.cfg, old(q.View()), w, types, turns, xs)
    ensures q.View() == AfterTurns(q.cfg, old(q.View()), w, types, turns, xs)
    ensures s'.db == q.View() && s'.HandOf(w).Idle? && Leads(q.cfg, s, es, s')
  {
    xs, es, s' := [], [], s;
    for i := 0 to |turns|
      invariant |xs| == i && AllDue(q.cfg, old(q.View()), w, types, turns[..i], xs)
      invariant q.View() == AfterTurns(q.cfg, old(q.View()), w, types, turns[..i], xs)
      invariant s'.db == q.View() && s'.HandOf(w).Idle? && Leads(q.cfg, s, es, s')
    {
      assert turns[..i + 1][..i] == turns[..i];
      ghost var x, sweeps, mid := Maintain(q, turns[i], s');
      LeadsFurther(q.cfg, s, es, s', sweeps, mid);
      ghost var work, next := PickAndSettle(q, w, types, turns[i], mid);
      LeadsFurther(q.cfg, s, es + sweeps, mid, work, next);
      assert (xs + [x])[..i] == xs;
      xs, es, s' := xs + [x], es + sweeps + work, next;
    }
    assert turns[..|turns|] == turns;
  }

  /** One thread's list is swept, before the thread is up. */
  method RecoverOne(q: JobQueue, w: string, ghost s: System, ghost es: seq<Event>, ghost mid: System)
    returns (ghost es': seq<Event>, ghost s': System)
    requires w != "" && mid.HandOf(w).Down? && mid.db == q.View() && Leads(q.cfg, s, es, mid)
    modifies q
    ensures es' == es + [Restart(w)] && s'.db == q.View() && Leads(q.cfg, s, es', s')
    ensures s'.HandOf(w).Idle? && forall v :: v != w ==> s'.HandOf(v) == mid.HandOf(v)
  {
    hide Recovered;
    var _ := q.RecoverProcessing(w);
    LeadsOn(q.cfg, s, es, mid, Restart(w));
    es', s' := es + [Restart(w)], Step(q.cfg, mid, Restart(w));
  }

  /** The sweep at start-up, over the names of this process's threads, none of which is up yet. */
  method RecoverOnStart(q: JobQueue, names: seq<string>, ghost s: System)
    returns (ghost s': System)
    requires NoDup(names) && (forall w :: w in names ==> w != "" && s.HandOf(w).Down?) && s.db == q.View()
    modifies q
    ensures s'.db == q.View() && (forall w :: w in names ==> s'.HandOf(w).Idle?)
    ensures Leads(q.cfg, s, seq(|names|, i requires 0 <= i < |names| => Restart(names[i])), s')
  {
    s' := s;
    ghost var es: seq<Event> := [];
    for i := 0 to |names|
      invariant es == seq(i, k requires 0 <= k < i => Restart(names[k]))
      invariant s'.db == q.View() && Leads(q.cfg, s, es, s')
      invariant forall k :: 0 <= k < |names| ==> (s'.HandOf(names[k]).Idle? <==> k < i) && (k >= i ==> s'.HandOf(names[k]).Down?)
    {
      assert names[i] in names;
      ghost var was := s';
      es, s' := RecoverOne(q, names[i], s, es, s');
      forall k | 0 <= k < |names| && k != i ensures s'.HandOf(names[k]) == was.HandOf(names[k]) { assert names[k] != names[i]; }
    }
  }
}
