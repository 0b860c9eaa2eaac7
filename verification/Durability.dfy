/** A job that is over stays over. With leases on or off, no step but an operator's requeue of a
    dead job leaves a terminal status, so a cancelled job is never handed to a worker again. */
module Durability {
  import opened Wrappers
  import opened JobModel
  import opened Backoff
  import opened JobQueue
  import opened Workers
  import opened Placement

  /** The job was submitted once, and its record is terminal or has expired. */
  ghost predicate Over(s: System, id: Id) { id in s.issued && !s.Live(id) }

  ghost predicate NotLive(db: Store, id: Id) { id !in db.blobs || db.blobs[id].status.Terminal() }

  lemma FailureKeepsOver(cfg: Config, db: Store, x: Id, error: string, now: int, id: Id)
    requires NotLive(db, id)
    ensures NotLive(Failure(cfg, db, x, error, now), id)
  {
    hide Untracked, Delay;
    if x in db.blobs { UntrackingKeepsRecords(cfg, db, x, db.blobs[x].worker); }
  }

  lemma {:induction false} SweepsKeepOver(cfg: Config, db: Store, w: string, ids: seq<Id>, now: int, id: Id)
    requires NotLive(db, id)
    ensures NotLive(RecoveredAll(db, w, ids), id)
    ensures NotLive(ReapedAll(cfg, db, ids, now), id)
    decreases |ids|
  {
    if ids != [] {
      var front, last := ids[..|ids| - 1], ids[|ids| - 1];
      SweepsKeepOver(cfg, db, w, front, now, id);
      var db1 := ReapedAll(cfg, db, front, now);
      if last in db1.leases { FailureKeepsOver(cfg, db1.ZRemLease(last), last, "visibility timeout exceeded", now, id); }
    }
  }

  lemma SettlingKeepsOver(cfg: Config, db: Store, x: Id, v: Verdict, now: int, id: Id)
    requires NotLive(db, id)
    ensures NotLive(Settled(cfg, db, x, v, now), id)
  {
    if v.Throws? {
      hide Failure;
      FailureKeepsOver(cfg, db, x, v.error, now, id);
    }
  }

  lemma CancelKeepsOver(cfg: Config, db: Store, x: Id, id: Id)
    requires NotLive(db, id)
    ensures NotLive(Cancelled(cfg, db, x), id)
  {}

  lemma ClaimKeepsOver(cfg: Config, db: Store, w: string, x: Id, now: int, id: Id)
    requires NotLive(db, id)
    ensures NotLive(Claimed(cfg, db, w, x, now).0, id)
  {}

  predicate Revives(s: System, e: Event, id: Id) { e.Requeue? && e.id == id && Requeueable(s.db, id) }

  /** The job id that pick returns in this step, if any. */
  function Handed(cfg: Config, s: System, e: Event): Option<Id> {
    if e.Claim? && s.HandOf(e.worker).Recorded? && s.Live(s.HandOf(e.worker).id) then Some(s.HandOf(e.worker).id)
    else None
  }

  /** A step ends being over exactly when it requeues the job from the dead-letter queue; and no
      step hands out a job that is over. */
  lemma OnlyRequeueRevives(cfg: Config, s: System, e: Event, id: Id)
    requires Over(s, id) && Enabled(cfg, s, e)
    ensures Over(Step(cfg, s, e), id) <==> !Revives(s, e, id)
    ensures Handed(cfg, s, e) != Some(id)
  {
    hide Cancelled, Claimed, Settled;
    match e
    case Cancel(x) => CancelKeepsOver(cfg, s.db, x, id);
    case Claim(w, now) => ClaimKeepsOver(cfg, s.db, w, s.HandOf(w).id, now, id);
    case Restart(w) => SweepsKeepOver(cfg, s.db, w, s.db.At(InFlight(w)), 0, id);
    case Promote(ids, now) => PromotionKeepsRecords(s.db, ids);
    case Reap(ids, now) => SweepsKeepOver(cfg, s.db, "", ids, now, id);
    case Finish(w, v, now) => SettlingKeepsOver(cfg, s.db, s.HandOf(w).id, v, now, id);
    case _ =>
  }

  ghost predicate Proceeds(cfg: Config, s: System, es: seq<Event>)
    decreases |es|
  {
    es == [] ||
    var front := es[..|es| - 1];
    Proceeds(cfg, s, front) && Enabled(cfg, Run(cfg, s, front), es[|es| - 1])
  }

  ghost predicate Unrevived(cfg: Config, s: System, es: seq<Event>, id: Id)
    decreases |es|
  {
    es == [] ||
    var front := es[..|es| - 1];
    Unrevived(cfg, s, front, id) && !Revives(Run(cfg, s, front), es[|es| - 1], id)
  }

  ghost predicate NeverHanded(cfg: Config, s: System, es: seq<Event>, id: Id)
    decreases |es|
  {
    es == [] ||
    var front := es[..|es| - 1];
    NeverHanded(cfg, s, front, id) && Handed(cfg, Run(cfg, s, front), es[|es| - 1]) != Some(id)
  }

  lemma {:induction false} StaysOver(cfg: Config, s: System, es: seq<Event>, id: Id)
    requires Over(s, id) && Proceeds(cfg, s, es) && Unrevived(cfg, s, es, id)
    ensures Over(Run(cfg, s, es), id) && NeverHanded(cfg, s, es, id)
    decreases |es|
  {
    if es != [] {
      var front := es[..|es| - 1];
      StaysOver(cfg, s, front, id);
      OnlyRequeueRevives(cfg, Run(cfg, s, front), es[|es| - 1], id);
    }
  }

  /** With each operation one step: once cancel returns true, no later pick returns the job unless an operator requeues it from
      the dead-letter queue, whatever was popping or promoting it when the cancel landed. */
  lemma CancelIsFinal(cfg: Config, s: System, id: Id, es: seq<Event>)
    requires Cancellable(s.db, id) && id in s.issued
    requires var s' := Step(cfg, s, Cancel(id)); Proceeds(cfg, s', es) && Unrevived(cfg, s', es, id)
    ensures var s' := Step(cfg, s, Cancel(id)); Over(Run(cfg, s', es), id) && NeverHanded(cfg, s', es, id)
  {
    var s' := Step(cfg, s, Cancel(id));
    assert Over(s', id);
    StaysOver(cfg, s', es, id);
  }

  /** The events that can end a live job. */
  predicate Ends(s: System, e: Event, id: Id) {
    || (e.Cancel? && e.id == id)
    || (e.Finish? && s.HandOf(e.worker) == Running(id))
    || (e.Reap? && id in e.ids)
  }

  /** The job still has work to do, and Redis will not drop its record. */
  predicate Pinned(db: Store, id: Id) {
    id in db.blobs && !db.blobs[id].status.Terminal() && !db.blobs[id].expires
  }

  lemma UntrackingKeepsRecords(cfg: Config, db: Store, x: Id, worker: string)
    ensures Untracked(cfg, db, x, worker).blobs == db.blobs
  {}

  lemma ReschedulingKeepsOthers(db: Store, x: Id, job: Job, now: int, delay: int, id: Id)
    requires Pinned(db, id) && x != id
    ensures Pinned(Rescheduled(db, x, job, now, delay), id)
  {}

  lemma SettlingKeepsOthers(cfg: Config, db: Store, x: Id, v: Verdict, now: int, id: Id)
    requires Pinned(db, id) && x != id
    ensures Pinned(Settled(cfg, db, x, v, now), id)
  {
    hide Untracked, Rescheduled, Delay;
    if x in db.blobs {
      UntrackingKeepsRecords(cfg, db, x, db.blobs[x].worker);
      match v
      case Success(result) => UntrackingKeepsRecords(cfg, db.SetExBlob(x, db.blobs[x].(status := Completed, result := result)), x, db.blobs[x].worker);
      case Permanent(error) =>
      case Throws(error) =>
        var job := db.blobs[x].(retryCount := db.blobs[x].retryCount + 1, error := error);
        ReschedulingKeepsOthers(Untracked(cfg, db, x, job.worker), x, job, now, Delay(cfg, job.retryCount), id);
    }
  }

  lemma RescueKeepsLive(db: Store, w: string, x: Id, id: Id)
    requires Pinned(db, id)
    ensures Pinned(RecoveredOne(db, w, x), id)
  {}

  lemma {:induction false} RecoveryKeepsLive(db: Store, w: string, ids: seq<Id>, id: Id)
    requires Pinned(db, id)
    ensures Pinned(RecoveredAll(db, w, ids), id)
    decreases |ids|
  {
    hide RecoveredOne, Pinned;
    if ids != [] {
      RecoveryKeepsLive(db, w, ids[..|ids| - 1], id);
      RescueKeepsLive(RecoveredAll(db, w, ids[..|ids| - 1]), w, ids[|ids| - 1], id);
    }
  }

  lemma {:induction false} ReapingKeepsOthers(cfg: Config, db: Store, ids: seq<Id>, now: int, id: Id)
    requires Pinned(db, id) && id !in ids
    ensures Pinned(ReapedAll(cfg, db, ids, now), id)
    decreases |ids|
  {
    if ids != [] {
      var front, last := ids[..|ids| - 1], ids[|ids| - 1];
      ReapingKeepsOthers(cfg, db, front, now, id);
      var db1 := ReapedAll(cfg, db, front, now);
      SettlingKeepsOthers(cfg, db1.ZRemLease(last), last, Throws("visibility timeout exceeded"), now, id);
    }
  }

  /** Nothing but its own runner, a cancel or the lease reaper ends a live job. */
  lemma OnlyItsRunnerEnds(cfg: Config, s: System, e: Event, id: Id)
    requires Pinned(s.db, id) && id in s.issued && Enabled(cfg, s, e)
    ensures Ends(s, e, id) || Pinned(Step(cfg, s, e).db, id)
  {
    hide Settled, ReapedAll, RecoveredAll, PromotedAll;
    match e
    case Restart(w) => RecoveryKeepsLive(s.db, w, s.db.At(InFlight(w)), id);
    case Promote(ids, now) => PromotionKeepsRecords(s.db, ids);
    case Reap(ids, now) => if id !in ids { ReapingKeepsOthers(cfg, s.db, ids, now, id); }
    case Finish(w, v, now) => if s.HandOf(w).id != id { SettlingKeepsOthers(cfg, s.db, s.HandOf(w).id, v, now, id); }
    case _ =>
  }
}
