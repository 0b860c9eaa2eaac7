/** How a job ends. One job's record follows a small machine of its own, whatever the rest of the queue
    does, and that machine says which steps complete, cancel or bury a job and that a result is kept. */
module Outcomes {
  import opened Wrappers
  import opened PowersOfTwo
  import opened JobModel
  import opened Backoff
  import opened JobQueue
  import opened Workers
  import opened Placement
  import opened Whereabouts
  import opened ExactlyOnce
  import opened Durability

  // ---- The machine of one job ----------------------------------------------------------------

  function Rec(db: Store, id: Id): Option<Job> { if id in db.blobs then Some(db.blobs[id]) else None }

  /** The step charges the live job a failure: its handler throws, or its lease has run out. */
  predicate Charges(s: System, e: Event, id: Id) {
    s.Live(id) && ((e.Finish? && e.verdict.Throws? && s.HandOf(e.worker) == Running(id)) || (e.Reap? && id in e.ids))
  }

  /** What that failure makes of the record. */
  function Charged(job: Job, error: string): Job {
    var n := job.retryCount + 1;
    job.(retryCount := n, error := error, status := if n < job.maxRetries then Pending else Dead, expires := false)
  }

  /** What a step makes of one job's record: a function of that record, of what the thread holds, and of
      whether the id is in the list being recovered. */
  function NextRecord(cfg: Config, s: System, e: Event, id: Id): Option<Job> {
    var was := Rec(s.db, id);
    match e
    case Submit(x, t, m) =>
      if x == id then Some(Job(t, Pending, "", 0, if m < 0 then cfg.defaultMaxRetries else m, "", "", false)) else was
    case Claim(w, _) =>
      if s.HandOf(w) == Recorded(id) && s.Live(id) then Some(was.value.(status := Processing, worker := w, expires := false)) else was
    case Finish(w, v, _) =>
      if s.HandOf(w) != Running(id) || was.None? then was else
        (match v
         case Success(result) => Some(was.value.(status := Completed, result := result, expires := true))
         case Permanent(error) => Some(was.value.(status := Dead, error := error, expires := false))
         case Throws(error) => if s.Live(id) then Some(Charged(was.value, error)) else was)
    case Cancel(x) =>
      if x == id && s.Live(id) then Some(was.value.(status := Failed, error := "cancelled", expires := true)) else was
    case Requeue(x) =>
      if x == id && was.Some? && was.value.status.Dead? then
        Some(was.value.(status := Pending, retryCount := 0, error := "", expires := false)) else was
    case Reap(ids, _) =>
      if id in ids && s.Live(id) then Some(Charged(was.value, "visibility timeout exceeded")) else was
    case Restart(w) =>
      if id in s.db.At(InFlight(w)) && s.Live(id) && was.value.worker in ["", w] then
        Some(was.value.(status := Pending, worker := "", expires := false)) else was
    case Expire(x) => if x == id then None else was
    case _ => was
  }

  function Lease(db: Store, id: Id): Option<int> { if id in db.leases then Some(db.leases[id]) else None }

  /** What a step makes of one job's lease: a claim grants it, and it ends with the run, with the job, or
      by being reaped. */
  function NextLease(cfg: Config, s: System, e: Event, id: Id): Option<int> {
    if cfg.visibilityMs <= 0 then Lease(s.db, id)
    else if e.Claim? && s.HandOf(e.worker) == Recorded(id) && s.Live(id) then Some(e.now + cfg.visibilityMs)
    else if (e.Finish? && s.HandOf(e.worker) == Running(id) && id in s.db.blobs)
         || (e.Cancel? && e.id == id && s.Live(id)) || (e.Reap? && id in e.ids) then None
    else Lease(s.db, id)
  }

  function Score(db: Store, id: Id): Option<int> { if id in db.delayed then Some(db.delayed[id]) else None }

  /** What a step makes of one job's place in the delayed set: a failure with an attempt left parks it for
      the delay of that attempt, and a cancel or a promotion takes it out. */
  function NextScore(cfg: Config, s: System, e: Event, id: Id): Option<int> {
    if Charges(s, e, id) then
      var job := s.db.blobs[id];
      var delay := Delay(cfg, job.retryCount + 1);
      if job.retryCount + 1 < job.maxRetries && delay > 0 then Some(e.now + delay) else Score(s.db, id)
    else if (e.Cancel? && e.id == id && s.Live(id)) || (e.Promote? && id in e.ids) then None
    else Score(s.db, id)
  }

  /** The record, the lease and the place in the delayed set are as they were. */
  ghost predicate SameJob(db: Store, db': Store, id: Id) {
    Rec(db', id) == Rec(db, id) && Lease(db', id) == Lease(db, id) && Score(db', id) == Score(db, id)
  }

  lemma UntrackingIsApart(cfg: Config, db: Store, x: Id, worker: string, id: Id)
    ensures Rec(Untracked(cfg, db, x, worker), id) == Rec(db, id)
    ensures x != id ==> SameJob(db, Untracked(cfg, db, x, worker), id)
    ensures Score(Untracked(cfg, db, x, worker), id) == Score(db, id)
    ensures x == id ==> Lease(Untracked(cfg, db, x, worker), id) == if cfg.visibilityMs > 0 then None else Lease(db, id)
  {}

  lemma ReschedulingIsApart(db: Store, x: Id, job: Job, now: int, delay: int, id: Id)
    requires x != id
    ensures SameJob(db, Rescheduled(db, x, job, now, delay), id)
  {}

  lemma FailureIsApart(cfg: Config, db: Store, x: Id, error: string, now: int, id: Id)
    requires x != id
    ensures SameJob(db, Failure(cfg, db, x, error, now), id)
  {
    hide Untracked, Rescheduled, Delay;
    if x in db.blobs {
      UntrackingIsApart(cfg, db, x, db.blobs[x].worker, id);
      var job := db.blobs[x].(retryCount := db.blobs[x].retryCount + 1, error := error);
      ReschedulingIsApart(Untracked(cfg, db, x, job.worker), x, job, now, Delay(cfg, job.retryCount), id);
    }
  }

  lemma ReschedulingCharges(db: Store, id: Id, was: Job, error: string, now: int, delay: int)
    ensures var job := was.(retryCount := was.retryCount + 1, error := error);
      Rec(Rescheduled(db, id, job, now, delay), id) == Some(Charged(was, error))
  {}

  lemma FailureCharges(cfg: Config, db: Store, id: Id, error: string, now: int)
    ensures Rec(Failure(cfg, db, id, error, now), id)
         == if Cancellable(db, id) then Some(Charged(db.blobs[id], error)) else Rec(db, id)
  {
    hide Untracked, Rescheduled, Delay;
    if id in db.blobs {
      UntrackingIsApart(cfg, db, id, db.blobs[id].worker, id);
      ReschedulingCharges(Untracked(cfg, db, id, db.blobs[id].worker), id, db.blobs[id], error, now,
                          Delay(cfg, db.blobs[id].retryCount + 1));
    }
  }

  lemma {:induction false} ReapingIsApart(cfg: Config, db: Store, ids: seq<Id>, now: int, id: Id)
    requires id !in ids
    ensures SameJob(db, ReapedAll(cfg, db, ids, now), id)
    decreases |ids|
  {
    if ids != [] {
      var front, last := ids[..|ids| - 1], ids[|ids| - 1];
      ReapingIsApart(cfg, db, front, now, id);
      FailureIsApart(cfg, ReapedAll(cfg, db, front, now).ZRemLease(last), last, "visibility timeout exceeded", now, id);
    }
  }

  /** Each lease of the snapshot charges its job once. */
  lemma {:induction false} ReapingCharges(cfg: Config, db: Store, ids: seq<Id>, now: int, id: Id)
    requires NoDup(ids) && id in ids && id in db.leases
    ensures Rec(ReapedAll(cfg, db, ids, now), id)
         == if Cancellable(db, id) then Some(Charged(db.blobs[id], "visibility timeout exceeded")) else Rec(db, id)
    decreases |ids|
  {
    hide Failure;
    var front, last := ids[..|ids| - 1], ids[|ids| - 1];
    var mid := ReapedAll(cfg, db, front, now);
    if last == id {
      ReapingIsApart(cfg, db, front, now, id);
      FailureCharges(cfg, mid.ZRemLease(id), id, "visibility timeout exceeded", now);
    } else {
      ReapingCharges(cfg, db, front, now, id);
      FailureIsApart(cfg, mid.ZRemLease(last), last, "visibility timeout exceeded", now, id);
    }
  }

  lemma RescueRecord(db: Store, w: string, x: Id, id: Id)
    ensures Rec(RecoveredOne(db, w, x), id)
         == if x == id && Cancellable(db, id) && db.blobs[id].worker in ["", w]
            then Some(db.blobs[id].(status := Pending, worker := "", expires := false)) else Rec(db, id)
  {}

  lemma {:induction false} RecoveryRecord(db: Store, w: string, ids: seq<Id>, id: Id)
    ensures Rec(RecoveredAll(db, w, ids), id)
         == if id in ids && Cancellable(db, id) && db.blobs[id].worker in ["", w]
            then Some(db.blobs[id].(status := Pending, worker := "", expires := false)) else Rec(db, id)
    decreases |ids|
  {
    hide RecoveredOne;
    if ids != [] {
      var front, x := ids[..|ids| - 1], ids[|ids| - 1];
      RecoveryRecord(db, w, front, id);
      RescueRecord(RecoveredAll(db, w, front), w, x, id);
    }
  }

  lemma ClaimRecord(cfg: Config, db: Store, w: string, x: Id, now: int, id: Id)
    ensures Rec(Claimed(cfg, db, w, x, now).0, id)
         == if x == id && Cancellable(db, id) then Some(db.blobs[id].(status := Processing, worker := w, expires := false)) else Rec(db, id)
  {}

  lemma CancelRecord(cfg: Config, db: Store, x: Id, id: Id)
    ensures Rec(Cancelled(cfg, db, x), id)
         == if x == id && Cancellable(db, id) then Some(db.blobs[id].(status := Failed, error := "cancelled", expires := true)) else Rec(db, id)
  {}

  lemma SettlingRecord(cfg: Config, db: Store, x: Id, v: Verdict, now: int, id: Id)
    ensures Rec(Settled(cfg, db, x, v, now), id)
         == if x != id || id !in db.blobs then Rec(db, id) else
              match v
              case Success(result) => Some(db.blobs[id].(status := Completed, result := result, expires := true))
              case Permanent(error) => Some(db.blobs[id].(status := Dead, error := error, expires := false))
              case Throws(error) => if Cancellable(db, id) then Some(Charged(db.blobs[id], error)) else Rec(db, id)
  {
    match v
    case Success(_) =>
    case Permanent(_) =>
    case Throws(error) =>
      hide Failure;
      if x == id { FailureCharges(cfg, db, id, error, now); } else { FailureIsApart(cfg, db, x, error, now, id); }
  }

  /** Every step of the queue, seen from one job: its record moves by that machine and by nothing else. */
  lemma EachJobIsItsOwnMachine(cfg: Config, s: System, e: Event, id: Id)
    requires Enabled(cfg, s, e)
    ensures Rec(Step(cfg, s, e).db, id) == NextRecord(cfg, s, e, id)
  {
    hide Claimed, Settled, Cancelled, RecoveredAll, ReapedAll, PromotedAll;
    match e
    case Claim(w, now) => ClaimRecord(cfg, s.db, w, s.HandOf(w).id, now, id);
    case Finish(w, v, now) => SettlingRecord(cfg, s.db, s.HandOf(w).id, v, now, id);
    case Cancel(x) => CancelRecord(cfg, s.db, x, id);
    case Restart(w) => RecoveryRecord(s.db, w, s.db.At(InFlight(w)), id);
    case Promote(ids, _) => PromotionKeepsRecords(s.db, ids);
    case Reap(ids, now) => if id in ids { ReapingCharges(cfg, s.db, ids, now, id); } else { ReapingIsApart(cfg, s.db, ids, now, id); }
    case _ =>
  }

  // ---- Leases --------------------------------------------------------------------------------

  lemma FailureEndsLease(cfg: Config, db: Store, id: Id, error: string, now: int)
    ensures Lease(Failure(cfg, db, id, error, now), id)
         == if cfg.visibilityMs > 0 && id in db.blobs then None else Lease(db, id)
  {
    hide Untracked, Delay;
    if id in db.blobs { UntrackingIsApart(cfg, db, id, db.blobs[id].worker, id); }
  }

  lemma {:induction false} ReapingEndsLease(cfg: Config, db: Store, ids: seq<Id>, now: int, id: Id)
    requires NoDup(ids) && id in ids && id in db.leases && cfg.visibilityMs > 0
    ensures Lease(ReapedAll(cfg, db, ids, now), id) == None
    decreases |ids|
  {
    hide Failure;
    var front, last := ids[..|ids| - 1], ids[|ids| - 1];
    var mid := ReapedAll(cfg, db, front, now);
    if last == id {
      ReapingIsApart(cfg, db, front, now, id);
      FailureEndsLease(cfg, mid.ZRemLease(id), id, "visibility timeout exceeded", now);
    } else {
      ReapingEndsLease(cfg, db, front, now, id);
      FailureIsApart(cfg, mid.ZRemLease(last), last, "visibility timeout exceeded", now, id);
    }
  }

  lemma SettlingLease(cfg: Config, db: Store, x: Id, v: Verdict, now: int, id: Id)
    ensures Lease(Settled(cfg, db, x, v, now), id)
         == if x == id && id in db.blobs && cfg.visibilityMs > 0 then None else Lease(db, id)
  {
    hide Untracked, Failure;
    match v
    case Throws(error) =>
      if x == id { FailureEndsLease(cfg, db, id, error, now); } else { FailureIsApart(cfg, db, x, error, now, id); }
    case Success(result) =>
      if x in db.blobs { UntrackingIsApart(cfg, db.SetExBlob(x, db.blobs[x].(status := Completed, result := result)), x, db.blobs[x].worker, id); }
    case Permanent(_) => if x in db.blobs { UntrackingIsApart(cfg, db, x, db.blobs[x].worker, id); }
  }

  lemma {:induction false} SweepsKeepLeases(db: Store, w: string, ids: seq<Id>)
    ensures RecoveredAll(db, w, ids).leases == db.leases
    ensures PromotedAll(db, ids).leases == db.leases
    decreases |ids|
  {
    if ids != [] { SweepsKeepLeases(db, w, ids[..|ids| - 1]); }
  }

  lemma CancelLease(cfg: Config, db: Store, x: Id, id: Id)
    ensures Lease(Cancelled(cfg, db, x), id)
         == if x == id && Cancellable(db, id) && cfg.visibilityMs > 0 then None else Lease(db, id)
  {}

  lemma EachLeaseIsItsOwnMachine(cfg: Config, s: System, e: Event, id: Id)
    requires Enabled(cfg, s, e)
    ensures Lease(Step(cfg, s, e).db, id) == NextLease(cfg, s, e, id)
  {
    hide Settled, Cancelled, RecoveredAll, ReapedAll, PromotedAll;
    match e
    case Finish(w, v, now) => SettlingLease(cfg, s.db, s.HandOf(w).id, v, now, id);
    case Cancel(x) => CancelLease(cfg, s.db, x, id);
    case Restart(w) => SweepsKeepLeases(s.db, w, s.db.At(InFlight(w)));
    case Promote(ids, _) => SweepsKeepLeases(s.db, "", ids);
    case Reap(ids, now) => if id in ids { ReapingEndsLease(cfg, s.db, ids, now, id); } else { ReapingIsApart(cfg, s.db, ids, now, id); }
    case _ =>
  }

  /** The run hands the job to nobody else. */
  ghost predicate Unclaimed(cfg: Config, s: System, es: seq<Event>, id: Id)
    decreases |es|
  {
    es == [] ||
    var front, e := es[..|es| - 1], es[|es| - 1];
    Unclaimed(cfg, s, front, id) && !(e.Claim? && Run(cfg, s, front).HandOf(e.worker) == Recorded(id))
  }

  lemma {:induction false} LeaseStays(cfg: Config, s: System, es: seq<Event>, id: Id, due: int)
    requires Lease(s.db, id) == Some(due) && Proceeds(cfg, s, es) && Unclaimed(cfg, s, es, id)
    ensures Lease(Run(cfg, s, es).db, id) in [None, Some(due)]
    decreases |es|
  {
    hide Step, Lease;
    if es != [] {
      LeaseStays(cfg, s, es[..|es| - 1], id, due);
      EachLeaseIsItsOwnMachine(cfg, Run(cfg, s, es[..|es| - 1]), es[|es| - 1], id);
    }
  }

  /** No reaper takes a job from its runner before the visibility timeout has passed since its claim; and
      one that sweeps after that takes it if the lease is still there. */
  lemma NoReapBeforeTheTimeout(cfg: Config, s: System, w: string, now: int, id: Id, es: seq<Event>, ids: seq<Id>, t: int)
    requires cfg.visibilityMs > 0 && now >= 0 && s.HandOf(w) == Recorded(id) && s.Live(id)
    requires var s' := Step(cfg, s, Claim(w, now));
      Proceeds(cfg, s', es) && Unclaimed(cfg, s', es, id) && Enabled(cfg, Run(cfg, s', es), Reap(ids, t))
    ensures id in ids <==> id in Run(cfg, Step(cfg, s, Claim(w, now)), es).db.leases && t >= now + cfg.visibilityMs
  {
    var s' := Step(cfg, s, Claim(w, now));
    EachLeaseIsItsOwnMachine(cfg, s, Claim(w, now), id);
    LeaseStays(cfg, s', es, id, now + cfg.visibilityMs);
    hide Step;
  }

  // ---- Parked jobs ---------------------------------------------------------------------------

  lemma FailureParks(cfg: Config, db: Store, id: Id, error: string, now: int)
    ensures Score(Failure(cfg, db, id, error, now), id) ==
      if Cancellable(db, id) && db.blobs[id].retryCount + 1 < db.blobs[id].maxRetries && Delay(cfg, db.blobs[id].retryCount + 1) > 0
      then Some(now + Delay(cfg, db.blobs[id].retryCount + 1)) else Score(db, id)
  {
    hide Untracked, Delay;
    if id in db.blobs { UntrackingIsApart(cfg, db, id, db.blobs[id].worker, id); }
  }

  lemma {:induction false} ReapingParks(cfg: Config, db: Store, ids: seq<Id>, now: int, id: Id)
    requires NoDup(ids) && id in ids && id in db.leases
    ensures Score(ReapedAll(cfg, db, ids, now), id) ==
      if Cancellable(db, id) && db.blobs[id].retryCount + 1 < db.blobs[id].maxRetries && Delay(cfg, db.blobs[id].retryCount + 1) > 0
      then Some(now + Delay(cfg, db.blobs[id].retryCount + 1)) else Score(db, id)
    decreases |ids|
  {
    hide Failure, Delay;
    var front, last := ids[..|ids| - 1], ids[|ids| - 1];
    var mid := ReapedAll(cfg, db, front, now);
    if last == id {
      ReapingIsApart(cfg, db, front, now, id);
      FailureParks(cfg, mid.ZRemLease(id), id, "visibility timeout exceeded", now);
    } else {
      ReapingParks(cfg, db, front, now, id);
      FailureIsApart(cfg, mid.ZRemLease(last), last, "visibility timeout exceeded", now, id);
    }
  }

  lemma SettlingScore(cfg: Config, db: Store, x: Id, v: Verdict, now: int, id: Id)
    requires !v.Throws?
    ensures Score(Settled(cfg, db, x, v, now), id) == Score(db, id)
  {
    hide Untracked;
    if x in db.blobs {
      UntrackingIsApart(cfg, db, x, db.blobs[x].worker, id);
      if v.Success? { UntrackingIsApart(cfg, db.SetExBlob(x, db.blobs[x].(status := Completed, result := v.result)), x, db.blobs[x].worker, id); }
    }
  }

  lemma {:induction false} RecoveryKeepsScores(db: Store, w: string, ids: seq<Id>)
    ensures RecoveredAll(db, w, ids).delayed == db.delayed
    decreases |ids|
  { if ids != [] { RecoveryKeepsScores(db, w, ids[..|ids| - 1]); } }

  lemma {:induction false} PromotionUnparks(db: Store, ids: seq<Id>, id: Id)
    ensures Score(PromotedAll(db, ids), id) == if id in ids then None else Score(db, id)
    decreases |ids|
  { if ids != [] { PromotionUnparks(db, ids[..|ids| - 1], id); } }

  lemma CancelUnparks(cfg: Config, db: Store, x: Id, id: Id)
    ensures Score(Cancelled(cfg, db, x), id) == if x == id && Cancellable(db, id) then None else Score(db, id)
  {}

  lemma EachParkingIsItsOwnMachine(cfg: Config, s: System, e: Event, id: Id)
    requires Enabled(cfg, s, e)
    ensures Score(Step(cfg, s, e).db, id) == NextScore(cfg, s, e, id)
  {
    hide Settled, Failure, Delay, Cancelled, RecoveredAll, ReapedAll, PromotedAll;
    match e
    case Finish(w, v, now) =>
      var x := s.HandOf(w).id;
      if !v.Throws? {
        SettlingScore(cfg, s.db, x, v, now, id);
      } else {
        SettlingThrows(cfg, s.db, x, v.error, now);
        if x == id { FailureParks(cfg, s.db, id, v.error, now); } else { FailureIsApart(cfg, s.db, x, v.error, now, id); }
      }
    case Cancel(x) => CancelUnparks(cfg, s.db, x, id);
    case Restart(w) => RecoveryKeepsScores(s.db, w, s.db.At(InFlight(w)));
    case Promote(ids, _) => PromotionUnparks(s.db, ids, id);
    case Reap(ids, now) => if id in ids { ReapingParks(cfg, s.db, ids, now, id); } else { ReapingIsApart(cfg, s.db, ids, now, id); }
    case _ =>
  }

  lemma SettlingThrows(cfg: Config, db: Store, x: Id, error: string, now: int)
    ensures Settled(cfg, db, x, Throws(error), now) == Failure(cfg, db, x, error, now)
  {}

  /** The run charges the job no further failure. */
  ghost predicate Uncharged(cfg: Config, s: System, es: seq<Event>, id: Id)
    decreases |es|
  {
    es == [] ||
    var front := es[..|es| - 1];
    Uncharged(cfg, s, front, id) && !Charges(Run(cfg, s, front), es[|es| - 1], id)
  }

  lemma {:induction false} ScoreStays(cfg: Config, s: System, es: seq<Event>, id: Id, due: int)
    requires Score(s.db, id) == Some(due) && Proceeds(cfg, s, es) && Uncharged(cfg, s, es, id)
    ensures Score(Run(cfg, s, es).db, id) in [None, Some(due)]
    decreases |es|
  {
    hide Step, Score, Charges;
    if es != [] {
      ScoreStays(cfg, s, es[..|es| - 1], id, due);
      EachParkingIsItsOwnMachine(cfg, Run(cfg, s, es[..|es| - 1]), es[|es| - 1], id);
    }
  }

  /** A job whose k-th failure is charged at `e.now` and that has an attempt left is promoted by the sweeps
      from now + min(base * 2^min(k - 1, 30), max) on and by none before, until one takes it or it is
      cancelled. */
  lemma NoPromotionBeforeTheBackoff(cfg: Config, s: System, e: Event, id: Id, es: seq<Event>, ids: seq<Id>, t: int)
    requires cfg.Backing() && cfg.backoffBase < 0x2_0000_0000
    requires Enabled(cfg, s, e) && Charges(s, e, id) && e.now >= 0 && s.db.blobs[id].retryCount + 1 < s.db.blobs[id].maxRetries
    requires var s' := Step(cfg, s, e);
      Proceeds(cfg, s', es) && Uncharged(cfg, s', es, id) && Enabled(cfg, Run(cfg, s', es), Promote(ids, t))
    ensures var k := s.db.blobs[id].retryCount + 1;
      var wait := Min(cfg.backoffBase * Pow2(if k <= 1 then 0 else if k > 31 then 30 else k - 1), cfg.backoffMax);
      id in ids <==> id in Run(cfg, Step(cfg, s, e), es).db.delayed && t >= e.now + wait
  {
    var s', k := Step(cfg, s, e), s.db.blobs[id].retryCount + 1;
    EachParkingIsItsOwnMachine(cfg, s, e, id);
    DelayIsMonotone(cfg, k, k);
    DelayIsPromised(cfg, k);
    ScoreStays(cfg, s', es, id, e.now + Delay(cfg, k));
    hide Step, Delay;
  }

  // ---- Which step makes a job what it is -----------------------------------------------------

  /** The status, for a job that has a record. */
  function StatusOf(s: System, id: Id): Option<Status> { if id in s.db.blobs then Some(s.db.blobs[id].status) else None }

  /** A job that is not completed becomes completed exactly when its runner ends with success; failed
      exactly when a live job is cancelled; dead exactly when its runner ends with a permanent failure or
      its last allowed failure is charged; and processing exactly when a live job is claimed. */
  lemma HowAStatusIsReached(cfg: Config, s: System, e: Event, id: Id)
    requires Enabled(cfg, s, e)
    ensures var was, now := StatusOf(s, id), StatusOf(Step(cfg, s, e), id);
      && (was != Some(Completed) ==>
            (now == Some(Completed) <==> e.Finish? && e.verdict.Success? && s.HandOf(e.worker) == Running(id) && id in s.db.blobs))
      && (was != Some(Status.Failed) ==> (now == Some(Status.Failed) <==> e.Cancel? && e.id == id && s.Live(id)))
      && (was != Some(Dead) ==>
            (now == Some(Dead) <==>
              || (e.Finish? && e.verdict.Permanent? && s.HandOf(e.worker) == Running(id) && id in s.db.blobs)
              || (Charges(s, e, id) && s.db.blobs[id].retryCount + 1 >= s.db.blobs[id].maxRetries)))
      && (was != Some(Processing) ==> (now == Some(Processing) <==> e.Claim? && s.HandOf(e.worker) == Recorded(id) && s.Live(id)))
      && (was != Some(Pending) ==>
            (now == Some(Pending) <==>
              || (e.Submit? && e.id == id)
              || (e.Requeue? && e.id == id && was == Some(Dead))
              || (Charges(s, e, id) && s.db.blobs[id].retryCount + 1 < s.db.blobs[id].maxRetries)
              || (e.Restart? && s.Live(id) && id in s.db.At(InFlight(e.worker)) && s.db.blobs[id].worker in ["", e.worker])))
  {
    EachJobIsItsOwnMachine(cfg, s, e, id);
    hide Step;
  }

  // ---- A result is kept ----------------------------------------------------------------------

  ghost predicate HasResult(s: System, id: Id, job: Job) {
    id in s.issued && Rec(s.db, id) == Some(job) && job.status.Completed?
  }

  lemma NobodyRunsIt(s: System, id: Id, job: Job)
    requires Inv(s) && HasResult(s, id, job)
    ensures forall w :: s.HandOf(w) != Running(id)
  {
    var where :| Agrees(s, where);
    forall w ensures s.HandOf(w) != Running(id) { assert HandOk(s, where, w); }
  }

  /** With one runner a job, nothing but its expiry touches a completed record. */
  lemma ResultStays(cfg: Config, s: System, e: Event, id: Id, job: Job)
    requires Inv(s) && Enabled(cfg, s, e) && HasResult(s, id, job) && e != Expire(id)
    ensures HasResult(Step(cfg, s, e), id, job)
  {
    EachJobIsItsOwnMachine(cfg, s, e, id);
    NobodyRunsIt(s, id, job);
    hide Inv, Step;
  }

  lemma {:induction false} ResultIsKept(cfg: Config, s: System, es: seq<Event>, id: Id, job: Job)
    requires cfg.visibilityMs <= 0 && Inv(s) && Legal(cfg, s, es) && HasResult(s, id, job) && Expire(id) !in es
    ensures Inv(Run(cfg, s, es)) && HasResult(Run(cfg, s, es), id, job)
    decreases |es|
  {
    hide Inv, HasResult, Step;
    if es != [] {
      var front := es[..|es| - 1];
      ResultIsKept(cfg, s, front, id, job);
      ResultStays(cfg, Run(cfg, s, front), es[|es| - 1], id, job);
      StepKeepsInv(cfg, Run(cfg, s, front), es[|es| - 1]);
    }
  }

  /** After any legal run from the empty queue: when the runner of a live job ends with success, the job's
      record is the old one, completed, with that result and a time to live; the id is in no list, not
      parked and without a lease; and the record stays so in every legal continuation until it expires. */
  lemma ASuccessIsKept(cfg: Config, es: seq<Event>, w: string, result: string, now: int, id: Id, later: seq<Event>)
    requires cfg.visibilityMs <= 0 && Legal(cfg, START, es)
    requires var s := Run(cfg, START, es); s.HandOf(w) == Running(id) && s.Live(id)
    requires Legal(cfg, Step(cfg, Run(cfg, START, es), Finish(w, Success(result), now)), later) && Expire(id) !in later
    ensures var s := Run(cfg, START, es);
      var s' := Step(cfg, s, Finish(w, Success(result), now));
      var done := s.db.blobs[id].(status := Completed, result := result, expires := true);
      && s'.HandOf(w).Idle?
      && (forall k :: id !in s'.db.At(k)) && id !in s'.db.delayed && id !in s'.db.leases
      && id in Run(cfg, s', later).db.blobs && Run(cfg, s', later).db.blobs[id] == done
  {
    var s, e := Run(cfg, START, es), Finish(w, Success(result), now);
    StartIsInv();
    RunKeepsInv(cfg, START, es);
    EachJobIsItsOwnMachine(cfg, s, e, id);
    StepKeepsInv(cfg, s, e);
    var done := s.db.blobs[id].(status := Completed, result := result, expires := true);
    SuccessLeavesNoTrace(cfg, s, w, result, now, id);
    ResultIsKept(cfg, Step(cfg, s, e), later, id, done);
  }

  lemma SuccessLeavesNoTrace(cfg: Config, s: System, w: string, result: string, now: int, id: Id)
    requires cfg.visibilityMs <= 0 && Inv(s) && s.HandOf(w) == Running(id) && s.Live(id)
    ensures var s' := Step(cfg, s, Finish(w, Success(result), now));
      s'.HandOf(w).Idle? && id in s'.issued && (forall k :: id !in s'.db.At(k)) && id !in s'.db.delayed && id !in s'.db.leases
  {
    var where :| Agrees(s, where);
    Known(s, where, id);
    assert HandOk(s, where, w);
    FinishRelocatesTo(cfg, s.db, id, Success(result), now, W(where, id));
  }

  predicate Succeeds(s: System, e: Event, id: Id, result: string) {
    e.Finish? && s.HandOf(e.worker) == Running(id) && e.verdict == Success(result)
  }

  lemma CompletedByItsRunner(cfg: Config, s: System, e: Event, id: Id, result: string)
    requires Enabled(cfg, s, e)
    requires var s' := Step(cfg, s, e); id in s'.db.blobs && s'.db.blobs[id].status.Completed? && s'.db.blobs[id].result == result
    ensures Succeeds(s, e, id, result) || (id in s.db.blobs && s.db.blobs[id].status.Completed? && s.db.blobs[id].result == result)
  {
    EachJobIsItsOwnMachine(cfg, s, e, id);
    hide Step;
  }

  /** With leases on or off, in every run from the empty queue, a completed job has the result with which
      a runner of it did end. */
  lemma {:induction false} ACompletedJobDidSucceed(cfg: Config, es: seq<Event>, id: Id, result: string) returns (i: nat)
    requires Proceeds(cfg, START, es)
    requires var s := Run(cfg, START, es); id in s.db.blobs && s.db.blobs[id].status.Completed? && s.db.blobs[id].result == result
    ensures i < |es| && Succeeds(Run(cfg, START, es[..i]), es[i], id, result)
    decreases |es|
  {
    hide Step, Succeeds;
    var front, e := es[..|es| - 1], es[|es| - 1];
    CompletedByItsRunner(cfg, Run(cfg, START, front), e, id, result);
    if Succeeds(Run(cfg, START, front), e, id, result) {
      i := |es| - 1;
    } else {
      i := ACompletedJobDidSucceed(cfg, front, id, result);
      assert es[..i] == front[..i];
    }
  }

  lemma CancelPlaces(cfg: Config, s: System, where: Where, id: Id)
    requires cfg.visibilityMs <= 0 && Agrees(s, where) && s.Live(id)
    ensures var db := Cancelled(cfg, s.db, id);
      && id !in db.delayed
      && forall k :: id in db.At(k) <==> id in s.db.At(k) && k.InFlight? && s.db.blobs[id].status.Pending?
  {
    hide Agrees, Cancelled, OthersStay;
    Known(s, where, id);
    CancelRelocates(cfg, s.db, id, W(where, id));
  }

  /** After any legal run, cancelling a live job takes its id out of its queue, the delayed set and the
      list of the worker that runs it. One that is popped but not yet claimed stays where it is, for the
      claim to drop. */
  lemma ACancelledJobWaitsNowhere(cfg: Config, es: seq<Event>, id: Id)
    requires cfg.visibilityMs <= 0 && Legal(cfg, START, es) && Run(cfg, START, es).Live(id)
    ensures var s := Run(cfg, START, es);
      var s' := Step(cfg, s, Cancel(id));
      && id !in s'.db.delayed
      && forall k :: id in s'.db.At(k) <==> id in s.db.At(k) && k.InFlight? && s.db.blobs[id].status.Pending?
  {
    hide Agrees, Run, Legal, Cancelled;
    StartIsInv();
    RunKeepsInv(cfg, START, es);
    var where :| Agrees(Run(cfg, START, es), where);
    CancelPlaces(cfg, Run(cfg, START, es), where, id);
  }

  // ---- What the sweeps count -----------------------------------------------------------------

  /** The ids of the list that the sweep acts on, one by one. */
  lemma {:induction false} OneMore(ids: seq<Id>, chosen: Id -> bool)
    requires NoDup(ids) && ids != []
    ensures var front, last := ids[..|ids| - 1], ids[|ids| - 1];
      |set id | id in ids && chosen(id)| == |set id | id in front && chosen(id)| + if chosen(last) then 1 else 0
  {
    var front, last := ids[..|ids| - 1], ids[|ids| - 1];
    var some := set id | id in front && chosen(id);
    assert last !in some;
    assert (set id | id in ids && chosen(id)) == some + if chosen(last) then {last} else {};
  }

  predicate Rescuable(db: Store, w: string, id: Id) { Cancellable(db, id) && db.blobs[id].worker in ["", w] }

  /** Recovery counts the live jobs of the list that name this worker or nobody. */
  lemma {:induction false} RescuedAreCounted(db: Store, w: string, ids: seq<Id>)
    requires NoDup(ids)
    ensures Rescued(db, w, ids) == |set id | id in ids && Rescuable(db, w, id)|
    decreases |ids|
  {
    if ids != [] {
      var front, last := ids[..|ids| - 1], ids[|ids| - 1];
      RescuedAreCounted(db, w, front);
      RecoveryRecord(db, w, front, last);
      assert Rescued(db, w, ids) == Rescued(db, w, front) + if Rescuable(db, w, last) then 1 else 0;
      hide Rescued, Rescuable, RecoveredAll;
      var chosen := (id: Id) => Rescuable(db, w, id);
      OneMore(ids, chosen);
      assert (set id | id in front && chosen(id)) == set id | id in front && Rescuable(db, w, id);
      assert (set id | id in ids && chosen(id)) == set id | id in ids && Rescuable(db, w, id);
    }
  }

  predicate Pushable(db: Store, id: Id) { id in db.delayed && Cancellable(db, id) }

  /** The promoter counts the live jobs that it takes out of the delayed set. */
  lemma {:induction false} PushedAreCounted(db: Store, ids: seq<Id>)
    requires NoDup(ids)
    ensures Pushed(db, ids) == |set id | id in ids && Pushable(db, id)|
    decreases |ids|
  {
    if ids != [] {
      var front, last := ids[..|ids| - 1], ids[|ids| - 1];
      PushedAreCounted(db, front);
      PromotionUnparks(db, front, last);
      PromotionKeepsRecords(db, front);
      assert Pushed(db, ids) == Pushed(db, front) + if Pushable(db, last) then 1 else 0;
      hide Pushed, Pushable, PromotedAll;
      var chosen := (id: Id) => Pushable(db, id);
      OneMore(ids, chosen);
      assert (set id | id in front && chosen(id)) == set id | id in front && Pushable(db, id);
      assert (set id | id in ids && chosen(id)) == set id | id in ids && Pushable(db, id);
    }
  }

  predicate Reapable(db: Store, id: Id) { id in db.leases && id in db.blobs }

  /** The reaper counts the leases whose job has a record. */
  lemma {:induction false} ReapedAreCounted(cfg: Config, db: Store, ids: seq<Id>, now: int)
    requires NoDup(ids)
    ensures Reaped(cfg, db, ids, now) == |set id | id in ids && Reapable(db, id)|
    decreases |ids|
  {
    if ids != [] {
      var front, last := ids[..|ids| - 1], ids[|ids| - 1];
      ReapedAreCounted(cfg, db, front, now);
      ReapingIsApart(cfg, db, front, now, last);
      assert Reaped(cfg, db, ids, now) == Reaped(cfg, db, front, now) + if Reapable(db, last) then 1 else 0;
      hide Reaped, Reapable, ReapedAll;
      var chosen := (id: Id) => Reapable(db, id);
      OneMore(ids, chosen);
      assert (set id | id in front && chosen(id)) == set id | id in front && Reapable(db, id);
      assert (set id | id in ids && chosen(id)) == set id | id in ids && Reapable(db, id);
    }
  }
}
