/** Jobs that are alive and that nobody will ever run. A lost pop leaves one, and so does a thread
    that dies holding a job which still names the worker that failed it before. */
module Stranding {
  import opened Wrappers
  import opened JobModel
  import opened Backoff
  import opened JobQueue
  import opened Workers
  import opened Placement
  import opened Whereabouts
  import opened ExactlyOnce
  import opened Durability

  /** From db to db' the record of id is untouched and id has come to no list and no sorted set. */
  ghost predicate Aside(db: Store, db': Store, id: Id) {
    && (id in db.blobs <==> id in db'.blobs) && (id in db.blobs ==> db'.blobs[id] == db.blobs[id])
    && (forall k: Key {:trigger id in db'.At(k)} :: id in db'.At(k) ==> id in db.At(k))
    && (id in db'.delayed ==> id in db.delayed) && (id in db'.leases ==> id in db.leases)
  }

  lemma AsideThen(a: Store, b: Store, c: Store, id: Id)
    requires Aside(a, b, id) && Aside(b, c, id)
    ensures Aside(a, c, id)
  {
    forall k: Key | id in c.At(k) ensures id in a.At(k) { assert id in b.At(k); }
  }

  lemma AsideSelf(db: Store, id: Id)
    ensures Aside(db, db, id)
  {}

  lemma UntrackIsAside(cfg: Config, db: Store, x: Id, worker: string, id: Id)
    ensures Aside(db, Untracked(cfg, db, x, worker), id)
  {}

  lemma BuryIsAside(db: Store, x: Id, job: Job, id: Id)
    requires x != id
    ensures Aside(db, Buried(db, x, job), id)
  {}

  lemma RescheduleIsAside(db: Store, x: Id, job: Job, now: int, delay: int, id: Id)
    requires x != id
    ensures Aside(db, Rescheduled(db, x, job, now, delay), id)
  { BuryIsAside(db, x, job, id); }

  lemma FailureIsAside(cfg: Config, db: Store, x: Id, error: string, now: int, id: Id)
    requires x != id
    ensures Aside(db, Failure(cfg, db, x, error, now), id)
  {
    hide Untracked, Rescheduled, Delay, Aside;
    AsideSelf(db, id);
    if x in db.blobs {
      var db1 := Untracked(cfg, db, x, db.blobs[x].worker);
      UntrackIsAside(cfg, db, x, db.blobs[x].worker, id);
      if !db.blobs[x].status.Terminal() {
        var job, delay := db.blobs[x].(retryCount := db.blobs[x].retryCount + 1, error := error), Delay(cfg, db.blobs[x].retryCount + 1);
        RescheduleIsAside(db1, x, job, now, delay, id);
        AsideThen(db, db1, Rescheduled(db1, x, job, now, delay), id);
      }
    }
  }

  lemma DeadLetterIsAside(cfg: Config, db: Store, x: Id, error: string, id: Id)
    requires x != id
    ensures Aside(db, DeadLettered(cfg, db, x, error), id)
  {
    if x in db.blobs {
      var job := db.blobs[x].(error := error);
      var db1 := Untracked(cfg, db, x, job.worker);
      UntrackIsAside(cfg, db, x, job.worker, id);
      BuryIsAside(db1, x, job, id);
      AsideThen(db, db1, Buried(db1, x, job), id);
    }
  }

  lemma SettlingIsAside(cfg: Config, db: Store, x: Id, v: Verdict, now: int, id: Id)
    requires x != id
    ensures Aside(db, Settled(cfg, db, x, v, now), id)
  {
    match v
    case Success(result) =>
    case Throws(error) => FailureIsAside(cfg, db, x, error, now, id);
    case Permanent(error) => DeadLetterIsAside(cfg, db, x, error, id);
  }

  lemma ClaimIsAside(cfg: Config, db: Store, w: string, x: Id, now: int, id: Id)
    requires x != id
    ensures Aside(db, Claimed(cfg, db, w, x, now).0, id)
  {}

  lemma RecoverOneIsAside(db: Store, w: string, x: Id, id: Id)
    requires x == id ==> id !in db.blobs || db.blobs[id].status.Terminal() || !Owns(db.blobs[id], w)
    ensures Aside(db, RecoveredOne(db, w, x), id)
  {}

  lemma {:induction false} RecoveryIsAside(db: Store, w: string, ids: seq<Id>, id: Id)
    requires id in ids ==> id !in db.blobs || db.blobs[id].status.Terminal() || !Owns(db.blobs[id], w)
    ensures Aside(db, RecoveredAll(db, w, ids), id)
    decreases |ids|
  {
    if ids != [] {
      var front, x := ids[..|ids| - 1], ids[|ids| - 1];
      RecoveryIsAside(db, w, front, id);
      RecoverOneIsAside(RecoveredAll(db, w, front), w, x, id);
      AsideThen(db, RecoveredAll(db, w, front), RecoveredAll(db, w, ids), id);
    }
  }

  lemma PromoteOneIsAside(db: Store, x: Id, id: Id)
    requires id !in db.delayed
    ensures Aside(db, PromotedOne(db, x), id)
  {}

  lemma {:induction false} PromotionIsAside(db: Store, ids: seq<Id>, id: Id)
    requires id !in db.delayed
    ensures Aside(db, PromotedAll(db, ids), id)
    decreases |ids|
  {
    if ids != [] {
      var mid := PromotedAll(db, ids[..|ids| - 1]);
      PromotionIsAside(db, ids[..|ids| - 1], id);
      PromoteOneIsAside(mid, ids[|ids| - 1], id);
      AsideThen(db, mid, PromotedAll(db, ids), id);
    }
  }

  lemma ReapOneIsAside(cfg: Config, db: Store, x: Id, now: int, id: Id)
    requires id !in db.leases
    ensures Aside(db, ReapedOne(cfg, db, x, now), id)
  {
    if x in db.leases {
      FailureIsAside(cfg, db.ZRemLease(x), x, "visibility timeout exceeded", now, id);
      AsideThen(db, db.ZRemLease(x), ReapedOne(cfg, db, x, now), id);
    }
  }

  lemma {:induction false} ReapingIsAside(cfg: Config, db: Store, ids: seq<Id>, now: int, id: Id)
    requires id !in db.leases
    ensures Aside(db, ReapedAll(cfg, db, ids, now), id)
    decreases |ids|
  {
    if ids != [] {
      var mid := ReapedAll(cfg, db, ids[..|ids| - 1], now);
      ReapingIsAside(cfg, db, ids[..|ids| - 1], now, id);
      ReapOneIsAside(cfg, mid, ids[|ids| - 1], now, id);
      AsideThen(db, mid, ReapedAll(cfg, db, ids, now), id);
    }
  }

  // ---- Steps that leave a job alone ----------------------------------------------------------

  /** The id that this step pops from a queue, if any. */
  function Taken(s: System, e: Event): Option<Id> {
    if !e.Pop? then None
    else match FirstNonEmpty(s.db, e.types)
      case None => None
      case Some(t) => Some(s.db.Tail(Queue(t)))
  }

  /** Not dead, not parked, without a lease and in no thread's hand; and if it is alive, only in
      processing lists whose worker it does not name. It may wait in queues. */
  ghost predicate Loose(s: System, id: Id) {
    && (id in s.db.blobs ==> !s.db.blobs[id].status.Dead?)
    && id !in s.db.delayed && id !in s.db.leases
    && (forall v :: !About(s.HandOf(v), id))
    && (s.Live(id) ==> forall v :: id in s.db.At(InFlight(v)) ==> !Owns(s.db.blobs[id], v))
  }

  ghost predicate Unmoved(s: System, s': System, id: Id) {
    Aside(s.db, s'.db, id) && s.issued <= s'.issued && forall v :: !About(s'.HandOf(v), id)
  }

  lemma PopIsAside(s: System, w: string, t: string, single: bool, id: Id)
    requires Loose(s, id) && s.db.At(Queue(t)) != [] && s.db.Tail(Queue(t)) != id
    ensures Unmoved(s, Popped(s, w, t, single), id)
  {
    var x := s.db.Tail(Queue(t));
    var db := if single then Moved(s.db, t, w) else s.db.RPop(Queue(t));
    assert Aside(s.db, db, id);
    HandStep(s, db, w, if single then Recorded(x) else Bare(x, t), id);
  }

  /** A thread's step on the job in its hand, which is another one. */
  lemma HandStep(s: System, db: Store, w: string, h: Hand, id: Id)
    requires Loose(s, id) && Aside(s.db, db, id) && !About(h, id)
    ensures Unmoved(s, s.With(db).Put(w, h), id)
  {
    forall v ensures !About(s.With(db).Put(w, h).HandOf(v), id) { assert !About(s.HandOf(v), id); }
  }

  lemma ClaimStep(cfg: Config, s: System, w: string, now: int, id: Id)
    requires Loose(s, id) && s.HandOf(w).Recorded?
    ensures Unmoved(s, Step(cfg, s, Claim(w, now)), id)
  {
    var x := s.HandOf(w).id;
    assert !About(s.HandOf(w), id);
    ClaimIsAside(cfg, s.db, w, x, now, id);
    var (db, got) := Claimed(cfg, s.db, w, x, now);
    HandStep(s, db, w, if got.Some? then Running(x) else Idle, id);
  }

  lemma FinishStep(cfg: Config, s: System, w: string, v: Verdict, now: int, id: Id)
    requires Loose(s, id) && s.HandOf(w).Running?
    ensures Unmoved(s, Step(cfg, s, Finish(w, v, now)), id)
  {
    assert !About(s.HandOf(w), id);
    SettlingIsAside(cfg, s.db, s.HandOf(w).id, v, now, id);
    HandStep(s, Settled(cfg, s.db, s.HandOf(w).id, v, now), w, Idle, id);
  }

  lemma PushIsAside(db: Store, k: Key, x: Id, id: Id)
    requires x != id
    ensures Aside(db, db.RPush(k, x), id)
  {}

  lemma BareStep(cfg: Config, s: System, e: Event, id: Id)
    requires Loose(s, id) && (e.Record? || e.RecordFailed?) && s.HandOf(e.worker).Bare?
    ensures Unmoved(s, Step(cfg, s, e), id)
  {
    var h := s.HandOf(e.worker);
    assert !About(h, id);
    if e.Record? {
      PushIsAside(s.db, InFlight(e.worker), h.id, id);
      HandStep(s, s.db.RPush(InFlight(e.worker), h.id), e.worker, Recorded(h.id), id);
    } else if e.returned {
      PushIsAside(s.db, Queue(h.jtype), h.id, id);
      HandStep(s, s.db.RPush(Queue(h.jtype), h.id), e.worker, Idle, id);
    } else {
      HandStep(s, s.db, e.worker, Idle, id);
    }
  }

  lemma RestartStep(cfg: Config, s: System, w: string, id: Id)
    requires Loose(s, id) && w != ""
    ensures Unmoved(s, Step(cfg, s, Restart(w)), id)
  {
    RecoveryIsAside(s.db, w, s.db.At(InFlight(w)), id);
    HandStep(s, Recovered(s.db, w), w, Idle, id);
  }

  lemma SubmitIsAside(cfg: Config, db: Store, x: Id, t: string, m: int, id: Id)
    requires x != id
    ensures Aside(db, Submitted(cfg, db, x, t, m), id)
  {}

  lemma RequeueIsAside(db: Store, x: Id, id: Id)
    requires x != id || !Requeueable(db, x)
    ensures Aside(db, Requeued(db, x), id)
  {}

  lemma RemovalIsAside(db: Store, k: Key, x: Id, id: Id)
    ensures Aside(db, db.LRem(k, x), id)
  {}

  lemma CancelledRecordIsAside(db: Store, x: Id, job: Job, id: Id)
    requires x != id
    ensures Aside(db, db.SetExBlob(x, job), id)
  {}

  /** The tracking that a cancel removes, after the record and the queue. */
  lemma UnlistingIsAside(cfg: Config, db: Store, listed: bool, w: string, x: Id, id: Id)
    ensures var db1 := if listed then db.ZRemDelayed(x).LRem(InFlight(w), x) else db.ZRemDelayed(x);
      Aside(db, if cfg.visibilityMs > 0 then db1.ZRemLease(x) else db1, id)
  {
    RemovalIsAside(db.ZRemDelayed(x), InFlight(w), x, id);
  }

  lemma CancelIsAside(cfg: Config, db: Store, x: Id, id: Id)
    requires x != id
    ensures Aside(db, Cancelled(cfg, db, x), id)
  {
    if Cancellable(db, x) {
      var was := db.blobs[x];
      var db1 := db.SetExBlob(x, was.(status := Failed, error := "cancelled"));
      var db2 := db1.LRem(Queue(was.jtype), x);
      hide Aside;
      CancelledRecordIsAside(db, x, was.(status := Failed, error := "cancelled"), id);
      RemovalIsAside(db1, Queue(was.jtype), x, id);
      UnlistingIsAside(cfg, db2, was.status.Processing? && was.worker != "", was.worker, x, id);
      AsideThen(db, db1, db2, id);
      AsideThen(db, db2, Cancelled(cfg, db, x), id);
    }
  }

  /** The steps of no thread. */
  lemma OtherStep(cfg: Config, s: System, e: Event, id: Id)
    requires Loose(s, id) && Enabled(cfg, s, e) && (e.Requeue? || ((e.Submit? || e.Cancel? || e.Expire?) && e.id != id))
    ensures Unmoved(s, Step(cfg, s, e), id)
  {
    assert forall v :: Step(cfg, s, e).HandOf(v) == s.HandOf(v);
    match e
    case Submit(x, t, m) => SubmitIsAside(cfg, s.db, x, t, m, id);
    case Requeue(x) => RequeueIsAside(s.db, x, id);
    case Cancel(x) => CancelIsAside(cfg, s.db, x, id);
    case Expire(x) =>
  }

  lemma SweepStep(cfg: Config, s: System, e: Event, id: Id)
    requires Loose(s, id) && Enabled(cfg, s, e) && (e.Promote? || e.Reap?)
    ensures Unmoved(s, Step(cfg, s, e), id)
  {
    assert forall v :: Step(cfg, s, e).HandOf(v) == s.HandOf(v);
    if e.Promote? { PromotionIsAside(s.db, e.ids, id); } else { ReapingIsAside(cfg, s.db, e.ids, e.now, id); }
  }

  /** Nothing moves such a job but a pop that takes it from a queue, and what is about it by name:
      its submission, its cancellation and its expiry. Not the recovery of its list, not the promoters,
      not the lease reaper; and the operator's requeue takes dead jobs only. */
  lemma LooseStep(cfg: Config, s: System, e: Event, id: Id)
    requires Loose(s, id) && Enabled(cfg, s, e) && Taken(s, e) != Some(id)
    requires (e.Submit? || e.Cancel? || e.Expire?) ==> e.id != id
    ensures Unmoved(s, Step(cfg, s, e), id)
  {
    hide Loose, Unmoved;
    match e
    case Pop(w, types) =>
      var t := FirstNonEmpty(s.db, types);
      if t.Some? { PopIsAside(s, w, t.value, |types| == 1, id); } else { NoStep(s, id); }
    case Record(_) => BareStep(cfg, s, e, id);
    case RecordFailed(_, _) => BareStep(cfg, s, e, id);
    case Claim(w, now) => ClaimStep(cfg, s, w, now, id);
    case Finish(w, v, now) => FinishStep(cfg, s, w, v, now, id);
    case Promote(_, _) => SweepStep(cfg, s, e, id);
    case Reap(_, _) => SweepStep(cfg, s, e, id);
    case Crash(w) => CrashStep(cfg, s, w, id);
    case Restart(w) => RestartStep(cfg, s, w, id);
    case _ => OtherStep(cfg, s, e, id);
  }

  lemma NoStep(s: System, id: Id)
    requires Loose(s, id)
    ensures Unmoved(s, s, id)
  {}

  lemma CrashStep(cfg: Config, s: System, w: string, id: Id)
    requires Loose(s, id)
    ensures Unmoved(s, Step(cfg, s, Crash(w)), id)
  {
    AsideSelf(s.db, id);
    HandStep(s, s.db, w, Down, id);
  }

  /** What is about the job by name leaves it where it is, or takes it out of places. */
  ghost predicate Loosened(s: System, s': System, id: Id) {
    Loose(s', id) && s'.issued == s.issued && forall k: Key :: id in s'.db.At(k) ==> id in s.db.At(k)
  }

  lemma ExpiryLoosens(cfg: Config, s: System, id: Id)
    requires Loose(s, id)
    ensures Loosened(s, Step(cfg, s, Expire(id)), id)
  { assert forall v :: Step(cfg, s, Expire(id)).HandOf(v) == s.HandOf(v); }

  lemma CancelledIsGone(cfg: Config, db: Store, id: Id)
    requires Cancellable(db, id)
    ensures var db' := Cancelled(cfg, db, id);
      && id in db'.blobs && db'.blobs[id].status.Failed? && id !in db'.delayed && (id in db'.leases ==> id in db.leases)
      && forall k: Key :: id in db'.At(k) ==> id in db.At(k)
  {}

  lemma CancelLoosens(cfg: Config, s: System, id: Id)
    requires Loose(s, id)
    ensures Loosened(s, Step(cfg, s, Cancel(id)), id)
  {
    assert forall v :: Step(cfg, s, Cancel(id)).HandOf(v) == s.HandOf(v);
    if Cancellable(s.db, id) {
      hide Cancelled;
      CancelledIsGone(cfg, s.db, id);
    }
  }

  // ---- Stranded for good ---------------------------------------------------------------------

  /** In no queue, not parked, without a lease and in no thread's hand; and if it is alive, only in
      processing lists whose worker it does not name. */
  ghost predicate Stranded(s: System, id: Id) { id in s.issued && Loose(s, id) && forall t :: id !in s.db.At(Queue(t)) }

  lemma StrandedStays(s: System, s': System, id: Id)
    requires Stranded(s, id) && Unmoved(s, s', id)
    ensures Stranded(s', id)
  {
    forall t ensures id !in s'.db.At(Queue(t)) {}
    forall v ensures id in s'.db.At(InFlight(v)) ==> id in s.db.At(InFlight(v)) {}
  }

  /** Nothing that can happen brings a stranded job back. */
  lemma StrandedStep(cfg: Config, s: System, e: Event, id: Id)
    requires Stranded(s, id) && Enabled(cfg, s, e)
    ensures Stranded(Step(cfg, s, e), id) && Handed(cfg, s, e) != Some(id)
  {
    assert Handed(cfg, s, e) != Some(id) by { if e.Claim? { assert !About(s.HandOf(e.worker), id); } }
    if e.Cancel? && e.id == id {
      CancelLoosens(cfg, s, id);
    } else if e.Expire? && e.id == id {
      ExpiryLoosens(cfg, s, id);
    } else {
      LooseStep(cfg, s, e, id);
      StrandedStays(s, Step(cfg, s, e), id);
    }
  }

  /** A stranded job is never handed to a worker again, with leases on or off. */
  lemma {:induction false} StrandedForGood(cfg: Config, s: System, es: seq<Event>, id: Id)
    requires Stranded(s, id) && Proceeds(cfg, s, es)
    ensures Stranded(Run(cfg, s, es), id) && NeverHanded(cfg, s, es, id)
    decreases |es|
  {
    if es != [] {
      var front := es[..|es| - 1];
      StrandedForGood(cfg, s, front, id);
      StrandedStep(cfg, Run(cfg, s, front), es[|es| - 1], id);
    }
  }

  // ---- What strands a job --------------------------------------------------------------------

  /** A live job in a processing list and in no thread's hand is stranded exactly if it names another
      worker than that list's. */
  lemma ForeignIsStranded(s: System, w: string, id: Id)
    requires Inv(s) && s.Live(id) && id in s.db.At(InFlight(w)) && (forall v :: !About(s.HandOf(v), id))
    ensures Stranded(s, id) <==> !Owns(s.db.blobs[id], w)
  {
    var where :| Agrees(s, where);
    Known(s, where, id);
    assert Holds(s, In(InFlight(w)), id) && W(where, id) == In(InFlight(w));
    forall t ensures id !in s.db.At(Queue(t)) { assert !Holds(s, In(Queue(t)), id); }
    forall v | id in s.db.At(InFlight(v)) ensures v == w { assert Holds(s, In(InFlight(v)), id); }
    assert !Holds(s, Parked, id);
  }

  /** A lost pop is lost for good: the job is alive and in no place. */
  lemma ALossStrands(cfg: Config, s: System, e: Event)
    requires Inv(s) && Enabled(cfg, s, e) && Loses(s, e)
    ensures var s', id := Step(cfg, s, e), s.HandOf(e.worker).id;
      s'.Live(id) && Stranded(s', id) && forall k :: id !in s'.db.At(k)
  {
    var s', id, w := Step(cfg, s, e), s.HandOf(e.worker).id, e.worker;
    var where :| Agrees(s, where);
    Known(s, where, id);
    OneHandPerJob(s, where, w);
    assert Holds(s, InHand(w), id) && W(where, id) == InHand(w) && s'.db == s.db;
    forall k ensures id !in s.db.At(k) { assert !Holds(s, In(k), id); }
    assert !Holds(s, Parked, id);
    forall v ensures !About(s'.HandOf(v), id) { assert About(s.HandOf(v), id) ==> v == w; }
  }

  // ---- Which jobs can still be handed out ----------------------------------------------------

  ghost predicate MayBeHanded(cfg: Config, s: System, id: Id) {
    exists es :: Proceeds(cfg, s, es) && !NeverHanded(cfg, s, es, id)
  }

  lemma {:induction false} Prepend(cfg: Config, s: System, e: Event, es: seq<Event>, id: Id)
    requires Enabled(cfg, s, e) && Proceeds(cfg, Step(cfg, s, e), es)
    ensures Proceeds(cfg, s, [e] + es) && Run(cfg, s, [e] + es) == Run(cfg, Step(cfg, s, e), es)
    ensures !NeverHanded(cfg, Step(cfg, s, e), es, id) || Handed(cfg, s, e) == Some(id) ==> !NeverHanded(cfg, s, [e] + es, id)
    decreases |es|
  {
    hide Step, Enabled, Handed;
    if es == [] {
      assert [e] + es == [e] && [e][..0] == [];
      assert Run(cfg, s, [e]) == Step(cfg, Run(cfg, s, []), e);
    } else {
      var n := |es| - 1;
      Prepend(cfg, s, e, es[..n], id);
      assert ([e] + es)[..n + 1] == [e] + es[..n];
    }
  }

  lemma ThenHanded(cfg: Config, s: System, e: Event, id: Id)
    requires Enabled(cfg, s, e) && (Handed(cfg, s, e) == Some(id) || MayBeHanded(cfg, Step(cfg, s, e), id))
    ensures MayBeHanded(cfg, s, id)
  {
    if Handed(cfg, s, e) == Some(id) {
      Prepend(cfg, s, e, [], id);
    } else {
      var es :| Proceeds(cfg, Step(cfg, s, e), es) && !NeverHanded(cfg, Step(cfg, s, e), es, id);
      Prepend(cfg, s, e, es, id);
    }
  }

  /** Recovery only adds at the far end of a queue. */
  lemma {:induction false} RecoveryAddsBehind(db: Store, w: string, ids: seq<Id>, t: string) returns (more: seq<Id>)
    ensures RecoveredAll(db, w, ids).At(Queue(t)) == more + db.At(Queue(t))
    decreases |ids|
  {
    hide RecoveredOne;
    more := [];
    if ids != [] {
      var front, x := ids[..|ids| - 1], ids[|ids| - 1];
      more := RecoveryAddsBehind(db, w, front, t);
      var first := RescueAddsBehind(RecoveredAll(db, w, front), w, x, t);
      assert first + (more + db.At(Queue(t))) == first + more + db.At(Queue(t));
      more := first + more;
    }
  }

  lemma RescueAddsBehind(db: Store, w: string, x: Id, t: string) returns (more: seq<Id>)
    ensures RecoveredOne(db, w, x).At(Queue(t)) == more + db.At(Queue(t))
  {
    var rescued := x in db.blobs && Owns(db.blobs[x], w) && !db.blobs[x].status.Terminal() && db.blobs[x].jtype == t;
    more := if rescued then [x] else [];
    assert [] + db.At(Queue(t)) == db.At(Queue(t));
  }

  /** n ids are ahead of this one in its queue. */
  predicate Ahead(s: System, t: string, id: Id, n: nat) {
    var l := s.db.At(Queue(t));
    n < |l| && l[|l| - 1 - n] == id
  }

  lemma PopAndDie(cfg: Config, s: System, w: string, t: string, id: Id, n: nat)
    requires Pinned(s.db, id) && w != "" && s.HandOf(w).Idle? && n > 0 && Ahead(s, t, id, n)
    ensures var s1 := Step(cfg, s, Pop(w, [t]));
      var s2 := Step(cfg, s1, Crash(w));
      && Enabled(cfg, s, Pop(w, [t])) && Enabled(cfg, s1, Crash(w))
      && Pinned(s2.db, id) && s2.HandOf(w).Down? && Ahead(s2, t, id, n - 1)
  {
    assert FirstNonEmpty(s.db, [t]) == Some(t);
    var s1 := Popped(s, w, t, true);
    assert s1.db.At(Queue(t)) == s.db.At(Queue(t))[..|s.db.At(Queue(t))| - 1];
  }

  lemma RecoveryKeepsAhead(cfg: Config, s: System, w: string, t: string, id: Id, n: nat)
    requires Pinned(s.db, id) && w != "" && s.HandOf(w).Down? && Ahead(s, t, id, n)
    ensures var s' := Step(cfg, s, Restart(w));
      Enabled(cfg, s, Restart(w)) && Pinned(s'.db, id) && s'.HandOf(w).Idle? && Ahead(s', t, id, n)
  {
    hide RecoveredAll;
    RecoveryKeepsLive(s.db, w, s.db.At(InFlight(w)), id);
    var more := RecoveryAddsBehind(s.db, w, s.db.At(InFlight(w)), t);
  }

  /** Taking the first id and dying with it: recovery puts it behind, or leaves it. */
  lemma OneFewerAhead(cfg: Config, s: System, w: string, t: string, id: Id, n: nat)
    requires Pinned(s.db, id) && w != "" && s.HandOf(w).Idle? && n > 0 && Ahead(s, t, id, n)
    ensures var s1 := Step(cfg, s, Pop(w, [t]));
      var s2 := Step(cfg, s1, Crash(w));
      var s3 := Step(cfg, s2, Restart(w));
      && Enabled(cfg, s, Pop(w, [t])) && Enabled(cfg, s1, Crash(w)) && Enabled(cfg, s2, Restart(w))
      && Pinned(s3.db, id) && s3.HandOf(w).Idle? && Ahead(s3, t, id, n - 1)
  {
    hide Pinned, Enabled, Ahead, Step;
    PopAndDie(cfg, s, w, t, id, n);
    RecoveryKeepsAhead(cfg, Step(cfg, Step(cfg, s, Pop(w, [t])), Crash(w)), w, t, id, n - 1);
  }

  lemma LiveIsPinned(s: System, id: Id)
    requires Inv(s) && s.Live(id)
    ensures Pinned(s.db, id)
  {
    var where :| Agrees(s, where);
    Known(s, where, id);
  }

  /** The first of a queue, once popped, is recorded and live. */
  lemma FirstIsPopped(cfg: Config, s: System, w: string, t: string, id: Id)
    requires Pinned(s.db, id) && w != "" && s.HandOf(w).Idle? && Ahead(s, t, id, 0)
    ensures var s1 := Step(cfg, s, Pop(w, [t])); Enabled(cfg, s, Pop(w, [t])) && s1.HandOf(w) == Recorded(id) && Pinned(s1.db, id)
  { assert FirstNonEmpty(s.db, [t]) == Some(t); }

  lemma {:induction false} QueuedIsHanded(cfg: Config, s: System, w: string, t: string, id: Id, n: nat)
    requires Pinned(s.db, id) && w != "" && s.HandOf(w).Idle? && Ahead(s, t, id, n)
    ensures MayBeHanded(cfg, s, id)
    decreases n
  {
    var s1 := Step(cfg, s, Pop(w, [t]));
    if n == 0 {
      FirstIsPopped(cfg, s, w, t, id);
      hide Step, MayBeHanded;
      ThenHanded(cfg, s1, Claim(w, 0), id);
      ThenHanded(cfg, s, Pop(w, [t]), id);
    } else {
      hide Pinned, Enabled, Step, MayBeHanded, Handed;
      OneFewerAhead(cfg, s, w, t, id, n);
      var s2 := Step(cfg, s1, Crash(w));
      QueuedIsHanded(cfg, Step(cfg, s2, Restart(w)), w, t, id, n - 1);
      ThenHanded(cfg, s2, Restart(w), id);
      ThenHanded(cfg, s1, Crash(w), id);
      ThenHanded(cfg, s, Pop(w, [t]), id);
    }
  }

  lemma RecoveredIsHanded(cfg: Config, s: System, w: string, id: Id)
    requires cfg.visibilityMs <= 0 && Inv(s) && s.Live(id) && w != "" && s.HandOf(w).Down?
    requires id in s.db.At(InFlight(w)) && Owns(s.db.blobs[id], w)
    ensures MayBeHanded(cfg, s, id)
  {
    hide Inv, MayBeHanded, RecoveredAll;
    var s', t := Step(cfg, s, Restart(w)), s.db.blobs[id].jtype;
    RecoveryRescuesItsOwn(cfg, s, w, id);
    StepKeepsInv(cfg, s, Restart(w));
    LiveIsPinned(s, id);
    RecoveryKeepsLive(s.db, w, s.db.At(InFlight(w)), id);
    var l := s'.db.At(Queue(t));
    var i :| 0 <= i < |l| && l[i] == id;
    QueuedIsHanded(cfg, s', w, t, id, |l| - 1 - i);
    ThenHanded(cfg, s, Restart(w), id);
  }

  /** Leases off: a live job in a processing list and in no thread's hand can be handed out again
      exactly if it names that list's worker or nobody. */
  lemma OwnersCanStillRunIt(cfg: Config, s: System, w: string, id: Id)
    requires cfg.visibilityMs <= 0 && Inv(s) && w != ""
    requires s.Live(id) && id in s.db.At(InFlight(w)) && forall v :: !About(s.HandOf(v), id)
    ensures MayBeHanded(cfg, s, id) <==> Owns(s.db.blobs[id], w)
  {
    if !Owns(s.db.blobs[id], w) {
      ForeignIsStranded(s, w, id);
      forall es | Proceeds(cfg, s, es) ensures NeverHanded(cfg, s, es, id) { StrandedForGood(cfg, s, es, id); }
    } else if s.HandOf(w).Down? {
      RecoveredIsHanded(cfg, s, w, id);
    } else if s.HandOf(w).Bare? {
      var s1 := Step(cfg, s, Record(w));
      StepKeepsInv(cfg, s, Record(w));
      CrashThenHanded(cfg, s1, w, id);
      ThenHanded(cfg, s, Record(w), id);
    } else {
      CrashThenHanded(cfg, s, w, id);
    }
  }

  lemma CrashThenHanded(cfg: Config, s: System, w: string, id: Id)
    requires cfg.visibilityMs <= 0 && Inv(s) && w != "" && !s.HandOf(w).Down? && !s.HandOf(w).Bare?
    requires s.Live(id) && id in s.db.At(InFlight(w)) && Owns(s.db.blobs[id], w)
    ensures MayBeHanded(cfg, s, id)
  {
    StepKeepsInv(cfg, s, Crash(w));
    RecoveredIsHanded(cfg, Step(cfg, s, Crash(w)), w, id);
    ThenHanded(cfg, s, Crash(w), id);
  }

  // ---- The runs ------------------------------------------------------------------------------

  /** A state with one job and two threads. */
  datatype Scene = Scene(job: Job, lists: map<Key, seq<Id>>, delayed: map<Id, int>, leases: map<Id, int>, a: Hand, b: Hand) {
    function Is(): System {
      System(Store(map["job" := job], lists, delayed, leases, {}), map["a" := a, "b" := b], {"job"})
    }
    function Hands(w: string, h: Hand): Scene { if w == "a" then this.(a := h) else this.(b := h) }
    function At(k: Key): seq<Id> { if k in lists then lists[k] else [] }
  }

  /** A legal run from the empty queue. */
  ghost predicate Reaches(cfg: Config, es: seq<Event>, s: System) { Legal(cfg, START, es) && Run(cfg, START, es) == s }

  lemma Go(cfg: Config, es: seq<Event>, s: System, e: Event) returns (es': seq<Event>)
    requires Reaches(cfg, es, s) && Enabled(cfg, s, e) && !Loses(s, e)
    ensures Reaches(cfg, es', Step(cfg, s, e))
  {
    Extend(cfg, START, es, e);
    es' := es + [e];
  }

  const FRESH := Job("t", Pending, "", 0, 3, "", "", false)

  const WAITING := Scene(FRESH, map[Queue("t") := ["job"]], map[], map[], Idle, Idle)

  lemma Opening(cfg: Config) returns (es: seq<Event>)
    ensures Reaches(cfg, es, WAITING.Is())
  {
    es := Go(cfg, [], START, Restart("a"));
    var s1 := System(EMPTY_STORE, map["a" := Idle], {});
    assert Step(cfg, START, Restart("a")) == s1;
    es := Go(cfg, es, s1, Restart("b"));
    var s2 := System(EMPTY_STORE, map["a" := Idle, "b" := Idle], {});
    assert Step(cfg, s1, Restart("b")) == s2;
    es := Go(cfg, es, s2, Submit("job", "t", 3));
    assert ["job"] + [] == ["job"] && {} + {"job"} == {"job"};
    assert Step(cfg, s2, Submit("job", "t", 3)) == WAITING.Is();
  }

  const HELD_BARE := System(Store(map["job" := FRESH], map[Queue("t") := []], map[], map[], {}),
                            map["a" := Bare("job", "t"), "b" := Idle], {"job"})

  lemma PoppedBare(cfg: Config)
    ensures Step(cfg, WAITING.Is(), Pop("a", ["t", "u"])) == HELD_BARE
  { assert FirstNonEmpty(WAITING.Is().db, ["t", "u"]) == Some("t"); }

  /** A multi-type pop by a, which dies before it has recorded the id. */
  lemma ALostPop(cfg: Config) returns (es: seq<Event>, e: Event)
    ensures Legal(cfg, START, es) && Enabled(cfg, Run(cfg, START, es), e) && Loses(Run(cfg, START, es), e)
    ensures var s := Step(cfg, Run(cfg, START, es), e);
      s.Live("job") && Stranded(s, "job") && forall k :: "job" !in s.db.At(k)
  {
    hide Legal, Run;
    es := Opening(cfg);
    es := Go(cfg, es, WAITING.Is(), Pop("a", ["t", "u"]));
    PoppedBare(cfg);
    e := Crash("a");
    forall v ensures !About(Step(cfg, HELD_BARE, e).HandOf(v), "job") {}
  }

  function Popper(x: Scene, w: string): Scene {
    x.(lists := x.lists[Queue("t") := []][InFlight(w) := ["job"]]).Hands(w, Recorded("job"))
  }

  lemma HandsPut(x: Scene, w: string, h: Hand)
    requires w == "a" || w == "b"
    ensures x.Hands(w, h).Is() == x.Is().Put(w, h)
  {
    assert map["a" := x.a, "b" := x.b][w := h] == x.Hands(w, h).Is().hands;
  }

  lemma PopIs(x: Scene, w: string)
    requires x.At(Queue("t")) == ["job"] && x.At(InFlight(w)) == [] && (w == "a" || w == "b")
    ensures FirstNonEmpty(x.Is().db, ["t"]) == Some("t") && Popped(x.Is(), w, "t", true) == Popper(x, w).Is()
  {
    var y := x.(lists := x.lists[Queue("t") := []][InFlight(w) := ["job"]]);
    assert ["job"][..0] == [] && ["job"] + [] == ["job"];
    assert Moved(x.Is().db, "t", w) == y.Is().db;
    HandsPut(y, w, Recorded("job"));
  }

  lemma Popping(cfg: Config, es: seq<Event>, x: Scene, w: string) returns (es': seq<Event>)
    requires Reaches(cfg, es, x.Is()) && x.At(Queue("t")) == ["job"] && x.At(InFlight(w)) == []
    requires (w == "a" && x.a == Idle) || (w == "b" && x.b == Idle)
    ensures Reaches(cfg, es', Popper(x, w).Is())
  {
    PopIs(x, w);
    es' := Go(cfg, es, x.Is(), Pop(w, ["t"]));
  }

  function Claimer(cfg: Config, x: Scene, w: string): Scene {
    x.(job := x.job.(status := Processing, worker := w, expires := false),
       leases := if cfg.visibilityMs > 0 then x.leases["job" := cfg.visibilityMs] else x.leases).Hands(w, Running("job"))
  }

  lemma ClaimIs(cfg: Config, x: Scene, w: string)
    requires !x.job.status.Terminal() && (w == "a" || w == "b") && x.Is().HandOf(w) == Recorded("job")
    ensures Step(cfg, x.Is(), Claim(w, 0)) == Claimer(cfg, x, w).Is()
  {
    var y := x.(job := x.job.(status := Processing, worker := w, expires := false),
                leases := if cfg.visibilityMs > 0 then x.leases["job" := cfg.visibilityMs] else x.leases);
    assert Claimed(cfg, x.Is().db, w, "job", 0).0 == y.Is().db by {
      assert map["job" := x.job]["job" := y.job] == map["job" := y.job];
    }
    HandsPut(y, w, Running("job"));
  }

  lemma Claiming(cfg: Config, es: seq<Event>, x: Scene, w: string) returns (es': seq<Event>)
    requires Reaches(cfg, es, x.Is()) && !x.job.status.Terminal()
    requires (w == "a" && x.a == Recorded("job")) || (w == "b" && x.b == Recorded("job"))
    ensures Reaches(cfg, es', Claimer(cfg, x, w).Is())
  {
    ClaimIs(cfg, x, w);
    es' := Go(cfg, es, x.Is(), Claim(w, 0));
  }

  /** a is running the job for the first time. */
  function First(cfg: Config): Scene {
    Scene(FRESH.(status := Processing, worker := "a"), map[Queue("t") := [], InFlight("a") := ["job"]], map[],
          if cfg.visibilityMs > 0 then map["job" := cfg.visibilityMs] else map[], Running("job"), Idle)
  }

  lemma FirstRun(cfg: Config) returns (es: seq<Event>)
    ensures Reaches(cfg, es, First(cfg).Is())
  {
    hide Run, Legal;
    es := Opening(cfg);
    es := Popping(cfg, es, WAITING, "a");
    es := Claiming(cfg, es, Popper(WAITING, "a"), "a");
    assert Claimer(cfg, Popper(WAITING, "a"), "a") == First(cfg);
  }

  /** The job has failed once under a, which it still names; it is parked, or waits in its queue. */
  function Failing(error: string, delayed: map<Id, int>, a: Hand): Scene {
    Scene(FRESH.(worker := "a", retryCount := 1, error := error),
          map[Queue("t") := if delayed == map[] then ["job"] else [], InFlight("a") := []], delayed, map[], a, Idle)
  }

  lemma UntrackingFirst(cfg: Config, leases: map<Id, int>)
    requires leases == map[] || (cfg.visibilityMs > 0 && leases == map["job" := cfg.visibilityMs])
    ensures var db := First(cfg).(leases := leases).Is().db;
      Untracked(cfg, db, "job", "a") == Store(db.blobs, map[Queue("t") := [], InFlight("a") := []], map[], map[], {})
  {
    assert ["job"][..0] == [] && Without(["job"], "job") == [];
    assert leases - {"job"} == map[];
  }

  lemma ReschedulingFirst(error: string, now: int, delay: int)
    ensures var db := Store(map["job" := FRESH.(status := Processing, worker := "a")],
                            map[Queue("t") := [], InFlight("a") := []], map[], map[], {});
      Rescheduled(db, "job", FRESH.(status := Processing, worker := "a", retryCount := 1, error := error), now, delay) ==
        Failing(error, if delay > 0 then map["job" := now + delay] else map[], Idle).Is().db
  {
    assert ["job"] + [] == ["job"];
    assert "job" in map["job" := now + delay];
  }

  lemma FailureOfFirst(cfg: Config, error: string, now: int, leases: map<Id, int>)
    requires leases == map[] || (cfg.visibilityMs > 0 && leases == map["job" := cfg.visibilityMs])
    ensures var d := Delay(cfg, 1);
      Failure(cfg, First(cfg).(leases := leases).Is().db, "job", error, now) ==
        Failing(error, if d > 0 then map["job" := now + d] else map[], Idle).Is().db
  {
    UntrackingFirst(cfg, leases);
    ReschedulingFirst(error, now, Delay(cfg, 1));
  }

  /** If it is parked, the promoter brings it back. */
  lemma Promoting(cfg: Config, es: seq<Event>, error: string, due: int, a: Hand) returns (es': seq<Event>)
    requires due >= 0 && cfg.backoffBase > 0 && Reaches(cfg, es, Failing(error, map["job" := due], a).Is())
    ensures Reaches(cfg, es', Failing(error, map[], a).Is())
  {
    hide Run, Legal, PromotedOne, PromotedAll;
    var s := Failing(error, map["job" := due], a).Is();
    assert "job" in map["job" := due];
    assert DueAt(["job"], s.db.delayed, due);
    es' := Go(cfg, es, s, Promote(["job"], due));
    PromotedIs(error, due, a);
  }

  lemma PromotedIs(error: string, due: int, a: Hand)
    ensures PromotedAll(Failing(error, map["job" := due], a).Is().db, ["job"]) == Failing(error, map[], a).Is().db
  {
    var db := Failing(error, map["job" := due], a).Is().db;
    assert "job" in map["job" := due];
    assert ["job"][..0] == [] && PromotedAll(db, ["job"]) == PromotedOne(PromotedAll(db, []), "job");
    assert map["job" := due] - {"job"} == map[] && ["job"] + [] == ["job"];
  }

  lemma FailedByA(cfg: Config) returns (es: seq<Event>)
    ensures Reaches(cfg, es, Failing("", map[], Idle).Is())
  {
    var s, d := First(cfg).Is(), Delay(cfg, 1);
    es := FirstRun(cfg);
    FailureOfFirst(cfg, "", 0, First(cfg).leases);
    es := Go(cfg, es, s, Finish("a", Throws(""), 0));
    assert s.hands["a" := Idle] == map["a" := Idle, "b" := Idle];
    assert Step(cfg, s, Finish("a", Throws(""), 0)) == Failing("", if d > 0 then map["job" := d] else map[], Idle).Is();
    if d > 0 { es := Promoting(cfg, es, "", d, Idle); }
  }

  /** b died between its pop and its claim, and is back: recovery leaves what names a. */
  const FOREIGN := Failing("", map[], Idle).(lists := map[Queue("t") := [], InFlight("a") := [], InFlight("b") := ["job"]])

  lemma DiesAndComesBack(cfg: Config, es: seq<Event>) returns (es': seq<Event>)
    requires Reaches(cfg, es, FOREIGN.(b := Recorded("job")).Is())
    ensures Reaches(cfg, es', FOREIGN.Is())
  {
    var s := FOREIGN.(b := Recorded("job")).Is();
    var down := FOREIGN.(b := Down).Is();
    es' := Go(cfg, es, s, Crash("b"));
    assert s.hands["b" := Down] == down.hands && Step(cfg, s, Crash("b")) == down;
    es' := Go(cfg, es', down, Restart("b"));
    assert ["job"][..0] == [];
    assert RecoveredAll(down.db, "b", ["job"]) == RecoveredOne(RecoveredAll(down.db, "b", []), "b", "job");
    assert down.hands["b" := Idle] == FOREIGN.Is().hands && Step(cfg, down, Restart("b")) == FOREIGN.Is();
  }

  /** a fails the job; b pops it, dies before the claim and comes back: the job is alive, both
      threads are up, and nobody will run it. The second pop wrote no lease, so with leases on the
      reaper does not find it either. */
  lemma AForeignJob(cfg: Config) returns (es: seq<Event>)
    ensures Legal(cfg, START, es)
    ensures var s := Run(cfg, START, es);
      && s.Live("job") && s.db.blobs["job"].worker == "a" && s.db.leases == map[]
      && s.HandOf("a").Idle? && s.HandOf("b").Idle? && s.db.At(InFlight("b")) == ["job"] && Stranded(s, "job")
  {
    hide Run, Legal;
    es := FailedByA(cfg);
    es := Popping(cfg, es, Failing("", map[], Idle), "b");
    assert Popper(Failing("", map[], Idle), "b") == FOREIGN.(b := Recorded("job"));
    es := DiesAndComesBack(cfg, es);
  }

  // ---- Leases --------------------------------------------------------------------------------

  const LATE := "visibility timeout exceeded"

  lemma ReapIs(cfg: Config)
    requires cfg.visibilityMs > 0
    ensures var s, now, d := First(cfg).Is(), cfg.visibilityMs, Delay(cfg, 1);
      && DueAt(["job"], s.db.leases, now)
      && ReapedAll(cfg, s.db, ["job"], now) == Failing(LATE, if d > 0 then map["job" := now + d] else map[], Idle).Is().db
  {
    var s, now := First(cfg).Is(), cfg.visibilityMs;
    assert ["job"][..0] == [] && ReapedAll(cfg, s.db, ["job"], now) == ReapedOne(cfg, ReapedAll(cfg, s.db, [], now), "job", now);
    assert s.db.ZRemLease("job") == First(cfg).(leases := map[]).Is().db by { assert map["job" := now] - {"job"} == map[]; }
    FailureOfFirst(cfg, LATE, now, map[]);
  }

  lemma LeaseRunsOut(cfg: Config, es: seq<Event>) returns (es': seq<Event>)
    requires cfg.visibilityMs > 0 && Reaches(cfg, es, First(cfg).Is())
    ensures var d := Delay(cfg, 1);
      Reaches(cfg, es', Failing(LATE, if d > 0 then map["job" := cfg.visibilityMs + d] else map[], Running("job")).Is())
  {
    ReapIs(cfg);
    es' := Go(cfg, es, First(cfg).Is(), Reap(["job"], cfg.visibilityMs));
  }

  /** a is slow, its lease runs out, and b runs the job beside it. */
  lemma ASlowWorker(cfg: Config) returns (es: seq<Event>)
    requires cfg.visibilityMs > 0
    ensures Legal(cfg, START, es) && RunBy(Run(cfg, START, es), "a", "job") && RunBy(Run(cfg, START, es), "b", "job")
  {
    hide Run, Legal;
    es := FirstRun(cfg);
    es := LeaseRunsOut(cfg, es);
    if Delay(cfg, 1) > 0 {
      assert cfg.backoffBase > 0;
      es := Promoting(cfg, es, LATE, cfg.visibilityMs + Delay(cfg, 1), Running("job"));
    }
    es := Popping(cfg, es, Failing(LATE, map[], Running("job")), "b");
    es := Claiming(cfg, es, Popper(Failing(LATE, map[], Running("job")), "b"), "b");
  }

  ghost predicate OneRunnerPerJob(cfg: Config) {
    forall es :: Legal(cfg, START, es) ==> forall v, w, id :: RunBy(Run(cfg, START, es), v, id) && RunBy(Run(cfg, START, es), w, id) ==> v == w
  }

  /** For every configuration: no job is ever run by two threads at once if and only if leases are
      off. */
  lemma OneRunnerExactlyWithoutLeases(cfg: Config)
    ensures OneRunnerPerJob(cfg) <==> cfg.visibilityMs <= 0
  {
    if cfg.visibilityMs > 0 {
      var es := ASlowWorker(cfg);
      assert Legal(cfg, START, es);
    } else {
      forall es | Legal(cfg, START, es)
        ensures forall v, w, id :: RunBy(Run(cfg, START, es), v, id) && RunBy(Run(cfg, START, es), w, id) ==> v == w
      {
        NothingLostNothingTwice(cfg, es);
      }
    }
  }
}
