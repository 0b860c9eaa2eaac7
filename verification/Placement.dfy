/** Where each operation moves a job id. Every lemma names the one place the id is in afterwards. */
module Placement {
  import opened Wrappers
  import opened JobModel
  import opened Backoff
  import opened JobQueue
  import opened Workers

  // ---- Stores --------------------------------------------------------------------------------

  /** In the store, id is at p and nowhere else. A place in a worker's hand is outside the store. */
  ghost predicate OnlyAt(db: Store, id: Id, p: Place) {
    && Clean(db.lists) && db.leases == map[]
    && (forall k: Key :: id in db.At(k) <==> p == In(k))
    && (id in db.delayed <==> p == Parked)
    && (id in db.dlqAll <==> p.In? && p.key.Dlq?)
  }

  /** Nothing but id has changed: neither its record nor where it is. */
  ghost predicate OthersStay(db: Store, db': Store, id: Id) {
    && (forall k: Key, x: Id {:trigger x in db'.At(k)} :: x != id ==> (x in db'.At(k) <==> x in db.At(k)))
    && db'.delayed - {id} == db.delayed - {id}
    && db'.dlqAll - {id} == db.dlqAll - {id}
    && db'.blobs - {id} == db.blobs - {id}
  }

  ghost predicate Relocates(db: Store, db': Store, id: Id, p: Place) {
    OthersStay(db, db', id) && OnlyAt(db', id, p)
  }

  lemma SubmitRelocates(cfg: Config, db: Store, id: Id, t: string, m: int)
    requires OnlyAt(db, id, Nowhere)
    ensures Relocates(db, Submitted(cfg, db, id, t, m), id, In(Queue(t)))
  {
    assert id !in db.At(Queue(t));
  }

  lemma UntrackRelocates(cfg: Config, db: Store, id: Id, worker: string, p: Place)
    requires cfg.visibilityMs <= 0 && OnlyAt(db, id, p) && (p == Nowhere || (worker != "" && p == In(InFlight(worker))))
    ensures Relocates(db, Untracked(cfg, db, id, worker), id, Nowhere)
    ensures Untracked(cfg, db, id, worker).blobs == db.blobs
  {}

  lemma FinishRelocates(cfg: Config, db: Store, id: Id, result: string, p: Place)
    requires id in db.blobs && cfg.visibilityMs <= 0 && OnlyAt(db, id, p)
    requires p == Nowhere || (db.blobs[id].worker != "" && p == In(InFlight(db.blobs[id].worker)))
    ensures Relocates(db, Finished(cfg, db, id, result), id, Nowhere)
  {
    var job := db.blobs[id].(status := Completed, result := result);
    UntrackRelocates(cfg, db.SetExBlob(id, job), id, job.worker, p);
  }

  lemma Then(a: Store, b: Store, c: Store, id: Id, p: Place, q: Place)
    requires Relocates(a, b, id, p) && Relocates(b, c, id, q)
    ensures Relocates(a, c, id, q)
  {}

  lemma BuryRelocates(db: Store, id: Id, job: Job)
    requires OnlyAt(db, id, Nowhere)
    ensures Relocates(db, Buried(db, id, job), id, In(Dlq(job.jtype)))
  {
    assert id !in db.At(Dlq(job.jtype));
  }

  lemma DeadLetterRelocates(cfg: Config, db: Store, id: Id, error: string, p: Place)
    requires id in db.blobs && cfg.visibilityMs <= 0 && OnlyAt(db, id, p)
    requires p == Nowhere || (db.blobs[id].worker != "" && p == In(InFlight(db.blobs[id].worker)))
    ensures Relocates(db, DeadLettered(cfg, db, id, error), id, In(Dlq(db.blobs[id].jtype)))
  {
    var job := db.blobs[id].(error := error);
    var db1 := Untracked(cfg, db, id, job.worker);
    UntrackRelocates(cfg, db, id, job.worker, p);
    BuryRelocates(db1, id, job);
    Then(db, db1, Buried(db1, id, job), id, Nowhere, In(Dlq(job.jtype)));
  }

  /** Where a failed job goes: back for another attempt, or to the dead-letter list. */
  function FailTarget(job: Job, delay: int): Place {
    if job.retryCount >= job.maxRetries then In(Dlq(job.jtype))
    else if delay > 0 then Parked
    else In(Queue(job.jtype))
  }

  lemma RescheduleRelocates(db: Store, id: Id, job: Job, now: int, delay: int)
    requires OnlyAt(db, id, Nowhere)
    ensures Relocates(db, Rescheduled(db, id, job, now, delay), id, FailTarget(job, delay))
  {
    if job.retryCount >= job.maxRetries {
      BuryRelocates(db, id, job);
    } else {
      var db1 := db.SetBlob(id, job.(status := Pending));
      PushRelocates(db1, id, Queue(job.jtype));
      Then(db, db1, db1.LPush(Queue(job.jtype), id), id, Nowhere, In(Queue(job.jtype)));
    }
  }

  lemma RetryRelocates(cfg: Config, db: Store, id: Id, error: string, now: int, delay: int, p: Place)
    requires id in db.blobs && cfg.visibilityMs <= 0 && OnlyAt(db, id, p)
    requires p == Nowhere || (db.blobs[id].worker != "" && p == In(InFlight(db.blobs[id].worker)))
    ensures var job := db.blobs[id].(retryCount := db.blobs[id].retryCount + 1, error := error);
            Relocates(db, Retried(cfg, db, id, error, now, delay), id, FailTarget(job, delay))
  {
    var job := db.blobs[id].(retryCount := db.blobs[id].retryCount + 1, error := error);
    var db1 := Untracked(cfg, db, id, job.worker);
    UntrackRelocates(cfg, db, id, job.worker, p);
    RescheduleRelocates(db1, id, job, now, delay);
    var db2 := Rescheduled(db1, id, job, now, delay);
    assert Retried(cfg, db, id, error, now, delay) == db2;
    Then(db, db1, db2, id, Nowhere, FailTarget(job, delay));
  }

  lemma PopRelocates(db: Store, t: string, w: string)
    requires db.At(Queue(t)) != [] && OnlyAt(db, db.Tail(Queue(t)), In(Queue(t)))
    ensures Relocates(db, db.RPop(Queue(t)), db.Tail(Queue(t)), Nowhere)
    ensures Relocates(db, Moved(db, t, w), db.Tail(Queue(t)), In(InFlight(w)))
  {
    var id := db.Tail(Queue(t));
    assert id !in db.At(InFlight(w));
  }

  lemma PushRelocates(db: Store, id: Id, k: Key)
    requires OnlyAt(db, id, Nowhere) && !k.Dlq?
    ensures Relocates(db, db.RPush(k, id), id, In(k))
    ensures Relocates(db, db.LPush(k, id), id, In(k))
  {
    assert id !in db.At(k);
  }

  lemma ClaimRelocates(cfg: Config, db: Store, w: string, id: Id, now: int)
    requires cfg.visibilityMs <= 0 && OnlyAt(db, id, In(InFlight(w)))
    ensures var (db1, got) := Claimed(cfg, db, w, id, now); Relocates(db, db1, id, if got.Some? then In(InFlight(w)) else Nowhere)
  {}

  /** Cancelling takes a job out of its queue, the delayed set, or the list of the worker that has
      claimed it; it leaves a popped but unclaimed id where it is, for the claim to drop. */
  function CancelTarget(job: Job, p: Place): Place {
    if p.InHand? || (p.In? && p.key.InFlight? && job.status.Pending?) then p else Nowhere
  }

  lemma CancelRelocates(cfg: Config, db: Store, id: Id, p: Place)
    requires cfg.visibilityMs <= 0 && Cancellable(db, id) && OnlyAt(db, id, p) && JobOk(db.blobs[id], p)
    ensures Relocates(db, Cancelled(cfg, db, id), id, CancelTarget(db.blobs[id], p))
  {}

  lemma RequeueRelocates(db: Store, id: Id)
    requires Requeueable(db, id) && OnlyAt(db, id, In(Dlq(db.blobs[id].jtype)))
    ensures Relocates(db, Requeued(db, id), id, In(Queue(db.blobs[id].jtype)))
  {
    assert id !in db.At(Queue(db.blobs[id].jtype));
  }

  lemma RecoverRelocates(db: Store, w: string, id: Id)
    requires OnlyAt(db, id, In(InFlight(w)))
    ensures Relocates(db, RecoveredOne(db, w, id), id,
      if id !in db.blobs then Nowhere
      else if !Owns(db.blobs[id], w) then In(InFlight(w))
      else if db.blobs[id].status.Terminal() then Nowhere
      else In(Queue(db.blobs[id].jtype)))
  {
    if id in db.blobs { assert id !in db.At(Queue(db.blobs[id].jtype)); }
  }

  lemma PromoteRelocates(db: Store, id: Id)
    requires OnlyAt(db, id, Parked) && id in db.blobs && !db.blobs[id].status.Terminal()
    ensures Relocates(db, PromotedOne(db, id), id, In(Queue(db.blobs[id].jtype)))
  {
    assert id !in db.At(Queue(db.blobs[id].jtype));
  }

  lemma {:induction false} PromotionKeepsRecords(db: Store, ids: seq<Id>)
    ensures PromotedAll(db, ids).blobs == db.blobs
    decreases |ids|
  {
    if ids != [] { PromotionKeepsRecords(db, ids[..|ids| - 1]); }
  }

  // ---- Systems -------------------------------------------------------------------------------

  predicate About(h: Hand, id: Id) { (h.Bare? || h.Recorded? || h.Running?) && h.id == id }

  /** The facts about an id that each step starts from. */
  lemma Known(s: System, where: Where, id: Id)
    requires Agrees(s, where)
    ensures OnlyAt(s.db, id, W(where, id))
    ensures id in s.db.blobs ==> JobOk(s.db.blobs[id], W(where, id))
    ensures forall v :: About(s.HandOf(v), id) ==> HandOk(s, where, v)
    ensures forall v :: s.HandOf(v).Bare? && s.HandOf(v).id == id <==> W(where, id) == InHand(v)
  {
    forall k: Key ensures id in s.db.At(k) <==> W(where, id) == In(k) { assert Holds(s, In(k), id) <==> W(where, id) == In(k); }
    assert Holds(s, Parked, id) <==> W(where, id) == Parked;
    forall v ensures s.HandOf(v).Bare? && s.HandOf(v).id == id <==> W(where, id) == InHand(v) {
      assert Holds(s, InHand(v), id) <==> W(where, id) == InHand(v);
    }
    forall v | About(s.HandOf(v), id) ensures HandOk(s, where, v) {}
  }

  lemma OneHandPerJob(s: System, where: Where, w: string)
    requires Agrees(s, where) && !s.HandOf(w).Down? && !s.HandOf(w).Idle?
    ensures HandOk(s, where, w)
    ensures forall v :: About(s.HandOf(v), s.HandOf(w).id) ==> v == w
  {
    var id := s.HandOf(w).id;
    Known(s, where, id);
    forall v | About(s.HandOf(v), id) ensures v == w {
      assert HandOk(s, where, v) && HandOk(s, where, w);
    }
  }

  /** One step of the system that concerns job id and the hand of w, and leaves id at p. */
  ghost predicate Acts(s: System, s': System, id: Id, p: Place, w: string) {
    && Relocates(s.db, s'.db, id, if p.InHand? then Nowhere else p)
    && s.issued <= s'.issued && id in s'.issued
    && (forall v :: v != w ==> s'.HandOf(v) == s.HandOf(v))
    && (s.HandOf(w).Bare? ==> s.HandOf(w).id == id)
    && (s'.HandOf(w).Bare? ==> s'.HandOf(w).id == id)
    && (forall v :: s'.HandOf(v).Bare? && s'.HandOf(v).id == id <==> p == InHand(v))
  }

  lemma ActsOnPlaces(s: System, s': System, where: Where, id: Id, p: Place, w: string)
    requires Placed(s, where) && Acts(s, s', id, p, w)
    ensures Placed(s', where[id := p])
  {
    var where' := where[id := p];
    forall q: Place, x: Id | q != Nowhere ensures Holds(s', q, x) <==> W(where', x) == q {
      assert Holds(s, q, x) <==> W(where, x) == q;
      if q.InHand? { assert q.worker != w ==> s'.HandOf(q.worker) == s.HandOf(q.worker); }
      if q.Parked? && x != id { assert x in s'.db.delayed - {id} <==> x in s.db.delayed - {id}; }
    }
    forall x ensures x in s'.db.dlqAll <==> W(where', x).In? && W(where', x).key.Dlq? {
      if x != id { assert x in s'.db.dlqAll - {id} <==> x in s.db.dlqAll - {id}; }
    }
  }

  lemma OtherHandsStay(s: System, s': System, where: Where, id: Id, p: Place, w: string, v: string)
    requires HandOk(s, where, v) && Acts(s, s', id, p, w) && v != w && !About(s.HandOf(v), id)
    ensures HandOk(s', where[id := p], v)
  {
    assert s'.HandOf(v) == s.HandOf(v);
    if !s.HandOf(v).Down? && !s.HandOf(v).Idle? {
      var x := s.HandOf(v).id;
      assert x in s'.db.blobs - {id} <==> x in s.db.blobs - {id};
      if x in s.db.blobs { assert (s'.db.blobs - {id})[x] == (s.db.blobs - {id})[x]; }
    }
  }

  lemma OtherJobsStay(s: System, s': System, where: Where, id: Id, p: Place, w: string)
    requires JobsOk(s, where) && Acts(s, s', id, p, w)
    requires if id in s'.db.blobs then JobOk(s'.db.blobs[id], p) else !p.Parked? && !(p.In? && p.key.Dlq?)
    ensures JobsOk(s', where[id := p])
  {
    var where' := where[id := p];
    forall x ensures x in s'.db.blobs ==> x in s'.issued && JobOk(s'.db.blobs[x], W(where', x))
             ensures x !in s'.db.blobs ==> !W(where', x).Parked? && !(W(where', x).In? && W(where', x).key.Dlq?)
    {
      if x != id {
        assert x in s'.db.blobs - {id} <==> x in s.db.blobs - {id};
        if x in s.db.blobs { assert (s'.db.blobs - {id})[x] == (s.db.blobs - {id})[x]; }
      }
    }
  }

  lemma Transfer(s: System, s': System, where: Where, id: Id, p: Place, w: string)
    requires Agrees(s, where) && Acts(s, s', id, p, w)
    requires if id in s'.db.blobs then JobOk(s'.db.blobs[id], p) else !p.Parked? && !(p.In? && p.key.Dlq?)
    requires HandOk(s', where[id := p], w)
    requires forall v :: v != w && About(s.HandOf(v), id) ==> HandOk(s', where[id := p], v)
    requires forall v :: v != w && s'.HandOf(w).Running? ==> s.HandOf(v) != s'.HandOf(w)
    ensures Agrees(s', where[id := p])
  {
    var where' := where[id := p];
    ActsOnPlaces(s, s', where, id, p, w);
    OtherJobsStay(s, s', where, id, p, w);
    forall v ensures HandOk(s', where', v) {
      assert HandOk(s, where, v);
      if v != w && !About(s.HandOf(v), id) { OtherHandsStay(s, s', where, id, p, w, v); }
    }
  }
}
