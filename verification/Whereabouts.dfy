/** Where a job is. With leases off, its one place moves by a small machine of its own: from its queue to a
    worker's list, and from there to the delayed set, back to its queue, to the dead letters or nowhere. */
module Whereabouts {
  import opened Wrappers
  import opened JobModel
  import opened Backoff
  import opened JobQueue
  import opened Workers
  import opened Placement

  // ---- What each operation does --------------------------------------------------------------

  lemma SubmitMoves(cfg: Config, s: System, where: Where, id: Id, t: string, m: int)
    requires Agrees(s, where) && id !in s.issued
    ensures Agrees(Step(cfg, s, Submit(id, t, m)), where[id := In(Queue(t))])
  {
    var s' := Step(cfg, s, Submit(id, t, m));
    Known(s, where, id);
    assert W(where, id) == Nowhere;
    SubmitRelocates(cfg, s.db, id, t, m);
    assert HandOk(s, where, "");
    Transfer(s, s', where, id, In(Queue(t)), "");
  }

  lemma PopMoves(s: System, where: Where, w: string, t: string, single: bool)
    requires Agrees(s, where) && w != "" && s.HandOf(w).Idle? && s.db.At(Queue(t)) != []
    ensures Agrees(Popped(s, w, t, single), where[s.db.Tail(Queue(t)) := if single then In(InFlight(w)) else InHand(w)])
  {
    var id := s.db.Tail(Queue(t));
    Known(s, where, id);
    assert id in s.db.At(Queue(t)) && W(where, id) == In(Queue(t));
    PopRelocates(s.db, t, w);
    if single {
      Transfer(s, Popped(s, w, t, single), where, id, In(InFlight(w)), w);
    } else {
      Transfer(s, Popped(s, w, t, single), where, id, InHand(w), w);
    }
  }

  lemma RecordMoves(cfg: Config, s: System, where: Where, w: string)
    requires Agrees(s, where) && s.HandOf(w).Bare?
    ensures Agrees(Step(cfg, s, Record(w)), where[s.HandOf(w).id := In(InFlight(w))])
  {
    var s', id := Step(cfg, s, Record(w)), s.HandOf(w).id;
    OneHandPerJob(s, where, w);
    Known(s, where, id);
    PushRelocates(s.db, id, InFlight(w));
    Transfer(s, s', where, id, In(InFlight(w)), w);
  }

  lemma RecordFailedMoves(cfg: Config, s: System, where: Where, w: string)
    requires Agrees(s, where) && s.HandOf(w).Bare?
    ensures Agrees(Step(cfg, s, RecordFailed(w, true)), where[s.HandOf(w).id := In(Queue(s.HandOf(w).jtype))])
  {
    var s', id, t := Step(cfg, s, RecordFailed(w, true)), s.HandOf(w).id, s.HandOf(w).jtype;
    OneHandPerJob(s, where, w);
    Known(s, where, id);
    PushRelocates(s.db, id, Queue(t));
    Transfer(s, s', where, id, In(Queue(t)), w);
  }

  lemma ClaimMoves(cfg: Config, s: System, where: Where, w: string, now: int)
    requires Agrees(s, where) && s.HandOf(w).Recorded? && cfg.visibilityMs <= 0
    ensures var id := s.HandOf(w).id;
      Agrees(Step(cfg, s, Claim(w, now)), where[id := if s.Live(id) then In(InFlight(w)) else Nowhere])
  {
    var id := s.HandOf(w).id;
    OneHandPerJob(s, where, w);
    Known(s, where, id);
    ClaimRelocates(cfg, s.db, w, id, now);
    Transfer(s, Step(cfg, s, Claim(w, now)), where, id, if s.Live(id) then In(InFlight(w)) else Nowhere, w);
  }

  /** Where the end of a run leaves the job. */
  function FinishTarget(cfg: Config, db: Store, id: Id, v: Verdict): Place {
    if id !in db.blobs then Nowhere else
      var job := db.blobs[id];
      match v
      case Success(_) => Nowhere
      case Permanent(_) => In(Dlq(job.jtype))
      case Throws(error) =>
        if job.status.Terminal() then Nowhere
        else FailTarget(job.(retryCount := job.retryCount + 1, error := error), Delay(cfg, job.retryCount + 1))
  }

  lemma NothingRelocates(db: Store, id: Id)
    requires OnlyAt(db, id, Nowhere)
    ensures Relocates(db, db, id, Nowhere)
  {}

  lemma FinishRelocatesTo(cfg: Config, db: Store, id: Id, v: Verdict, now: int, p: Place)
    requires cfg.visibilityMs <= 0 && OnlyAt(db, id, p)
    requires p == Nowhere || (id in db.blobs && db.blobs[id].worker != "" && p == In(InFlight(db.blobs[id].worker)))
    ensures Relocates(db, Settled(cfg, db, id, v, now), id, FinishTarget(cfg, db, id, v))
  {
    hide Relocates, OnlyAt, Untracked, Retried;
    if id !in db.blobs {
      NothingRelocates(db, id);
    } else {
      match v
      case Success(result) => FinishRelocates(cfg, db, id, result, p);
      case Permanent(error) => DeadLetterRelocates(cfg, db, id, error, p);
      case Throws(error) =>
        if db.blobs[id].status.Terminal() {
          UntrackRelocates(cfg, db, id, db.blobs[id].worker, p);
        } else {
          RetryRelocates(cfg, db, id, error, now, Delay(cfg, db.blobs[id].retryCount + 1), p);
        }
    }
  }

  lemma FinishMoves(cfg: Config, s: System, where: Where, w: string, v: Verdict, now: int)
    requires Agrees(s, where) && s.HandOf(w).Running? && cfg.visibilityMs <= 0
    ensures var id := s.HandOf(w).id; Agrees(Step(cfg, s, Finish(w, v, now)), where[id := FinishTarget(cfg, s.db, id, v)])
  {
    hide Agrees;
    var id := s.HandOf(w).id;
    OneHandPerJob(s, where, w);
    Known(s, where, id);
    FinishRelocatesTo(cfg, s.db, id, v, now, W(where, id));
    Transfer(s, Step(cfg, s, Finish(w, v, now)), where, id, FinishTarget(cfg, s.db, id, v), w);
  }

  /** A step of the admin or of Redis itself leaves every hand as it is. */
  lemma TransferStill(s: System, db: Store, where: Where, id: Id, p: Place)
    requires Agrees(s, where) && Relocates(s.db, db, id, if p.InHand? then Nowhere else p) && id in s.issued
    requires p.InHand? || W(where, id).InHand? ==> p == W(where, id)
    requires if id in db.blobs then JobOk(db.blobs[id], p) else !p.Parked? && !(p.In? && p.key.Dlq?)
    requires forall v :: About(s.HandOf(v), id) ==> HandOk(s.With(db), where[id := p], v)
    ensures Agrees(s.With(db), where[id := p])
  {
    var s' := s.With(db);
    Known(s, where, id);
    assert HandOk(s, where, "");
    assert forall v :: s'.HandOf(v) == s.HandOf(v);
    assert Acts(s, s', id, p, "");
    Transfer(s, s', where, id, p, "");
  }

  lemma CancelMoves(cfg: Config, s: System, where: Where, id: Id)
    requires Agrees(s, where) && cfg.visibilityMs <= 0 && Cancellable(s.db, id)
    ensures Agrees(s.With(Cancelled(cfg, s.db, id)), where[id := CancelTarget(s.db.blobs[id], W(where, id))])
  {
    Known(s, where, id);
    CancelRelocates(cfg, s.db, id, W(where, id));
    TransferStill(s, Cancelled(cfg, s.db, id), where, id, CancelTarget(s.db.blobs[id], W(where, id)));
  }

  lemma RequeueMoves(s: System, where: Where, id: Id)
    requires Agrees(s, where) && Requeueable(s.db, id)
    ensures Agrees(s.With(Requeued(s.db, id)), where[id := In(Queue(s.db.blobs[id].jtype))])
  {
    Known(s, where, id);
    assert W(where, id) == In(Dlq(s.db.blobs[id].jtype));
    RequeueRelocates(s.db, id);
    TransferStill(s, Requeued(s.db, id), where, id, In(Queue(s.db.blobs[id].jtype)));
  }

  lemma ExpireMoves(cfg: Config, s: System, where: Where, id: Id)
    requires Agrees(s, where) && Enabled(cfg, s, Expire(id))
    ensures Agrees(s.With(s.db.(blobs := s.db.blobs - {id})), where[id := W(where, id)])
  {
    Known(s, where, id);
    TransferStill(s, s.db.(blobs := s.db.blobs - {id}), where, id, W(where, id));
  }

  lemma PromoteMoves(s: System, where: Where, id: Id)
    requires Agrees(s, where) && id in s.db.delayed
    ensures s.Live(id) && Agrees(s.With(PromotedOne(s.db, id)), where[id := In(Queue(s.db.blobs[id].jtype))])
  {
    Known(s, where, id);
    PromoteRelocates(s.db, id);
    TransferStill(s, PromotedOne(s.db, id), where, id, In(Queue(s.db.blobs[id].jtype)));
  }

  /** Where recovery puts an id of the list. */
  function RecoverTarget(db: Store, w: string, id: Id): Place {
    if id !in db.blobs then Nowhere
    else if !Owns(db.blobs[id], w) then In(InFlight(w))
    else if db.blobs[id].status.Terminal() then Nowhere
    else In(Queue(db.blobs[id].jtype))
  }

  /** A thread's recovery handles the ids of its own list while the thread is down. */
  lemma RecoverMoves(s: System, where: Where, w: string, id: Id)
    requires Agrees(s, where) && s.HandOf(w).Down? && id in s.db.At(InFlight(w))
    ensures Agrees(s.With(RecoveredOne(s.db, w, id)), where[id := RecoverTarget(s.db, w, id)])
  {
    Known(s, where, id);
    RecoverRelocates(s.db, w, id);
    assert forall v :: !About(s.HandOf(v), id);
    TransferStill(s, RecoveredOne(s.db, w, id), where, id, RecoverTarget(s.db, w, id));
  }

  /** What recovery decides on: the record, and whether the id is in the list. */
  ghost predicate AsKnown(db: Store, db': Store, w: string, id: Id) {
    && (id in db'.blobs <==> id in db.blobs) && (id in db.blobs ==> db'.blobs[id] == db.blobs[id])
    && (id in db'.At(InFlight(w)) <==> id in db.At(InFlight(w)))
  }

  lemma RescueIsApart(db: Store, w: string, x: Id, id: Id)
    requires x != id
    ensures AsKnown(db, RecoveredOne(db, w, x), w, id)
  {}

  lemma {:induction false} RecoveryIsApart(db: Store, w: string, ids: seq<Id>, id: Id)
    requires id !in ids
    ensures AsKnown(db, RecoveredAll(db, w, ids), w, id)
    decreases |ids|
  {
    hide RecoveredOne;
    if ids != [] {
      RecoveryIsApart(db, w, ids[..|ids| - 1], id);
      RescueIsApart(RecoveredAll(db, w, ids[..|ids| - 1]), w, ids[|ids| - 1], id);
    }
  }

  /** The whole of recovery, id by id. Each id is handled at most once, so the ones still to come
      are still in the list. */
  lemma {:induction false} RecoverAllMoves(s: System, where: Where, w: string, ids: seq<Id>) returns (where': Where)
    requires Agrees(s, where) && s.HandOf(w).Down? && NoDup(ids) && forall id :: id in ids ==> id in s.db.At(InFlight(w))
    ensures Agrees(s.With(RecoveredAll(s.db, w, ids)), where')
    ensures forall id :: W(where', id) == if id in ids then RecoverTarget(s.db, w, id) else W(where, id)
    decreases |ids|
  {
    hide Agrees, RecoveredOne;
    if ids == [] {
      where' := where;
    } else {
      var n := |ids| - 1;
      var id, front := ids[n], ids[..n];
      assert forall x :: x in ids <==> x in front || x == id;
      assert id !in front;
      var mid := RecoverAllMoves(s, where, w, front);
      var s1 := s.With(RecoveredAll(s.db, w, front));
      RecoveryIsApart(s.db, w, front, id);
      RecoverMoves(s1, mid, w, id);
      where' := mid[id := RecoverTarget(s.db, w, id)];
      assert s1.With(RecoveredOne(s1.db, w, id)) == s.With(RecoveredAll(s.db, w, ids));
    }
  }

  /** A sweep of the delayed set promotes every id of its snapshot. */
  lemma {:induction false} PromoteAllMoves(s: System, where: Where, ids: seq<Id>) returns (where': Where)
    requires Agrees(s, where) && NoDup(ids) && forall id :: id in ids ==> id in s.db.delayed
    ensures Agrees(s.With(PromotedAll(s.db, ids)), where')
    ensures forall id :: id in ids ==> id in s.db.blobs
    ensures forall id :: W(where', id) == if id in ids then In(Queue(s.db.blobs[id].jtype)) else W(where, id)
    ensures PromotedAll(s.db, ids).blobs == s.db.blobs
    ensures forall x :: x !in ids && x in s.db.delayed ==> x in PromotedAll(s.db, ids).delayed
    decreases |ids|
  {
    if ids == [] {
      where' := where;
    } else {
      var n := |ids| - 1;
      var id, front := ids[n], ids[..n];
      assert forall x :: x in ids <==> x in front || x == id;
      assert id !in front;
      var mid := PromoteAllMoves(s, where, front);
      var s1 := s.With(PromotedAll(s.db, front));
      PromoteMoves(s1, mid, id);
      where' := mid[id := In(Queue(s1.db.blobs[id].jtype))];
      assert s1.With(PromotedOne(s1.db, id)) == s.With(PromotedAll(s.db, ids));
    }
  }

  /** A thread that stops, or starts, holding no bare id changes no place. */
  lemma HandDrops(s: System, where: Where, w: string, h: Hand)
    requires Agrees(s, where) && !s.HandOf(w).Bare? && (h.Down? || (h.Idle? && w != ""))
    ensures Agrees(s.Put(w, h), where)
  {
    var s' := s.Put(w, h);
    assert forall v :: v != w ==> s'.HandOf(v) == s.HandOf(v);
    forall q: Place, x: Id | q != Nowhere ensures Holds(s', q, x) <==> W(where, x) == q {
      assert Holds(s, q, x) <==> W(where, x) == q;
    }
    forall v ensures HandOk(s', where, v) { assert HandOk(s, where, v); }
  }

  /** Dropping a bare id that is over loses nothing. */
  lemma BareDrops(s: System, where: Where, w: string, h: Hand)
    requires Agrees(s, where) && s.HandOf(w).Bare? && !s.Live(s.HandOf(w).id) && (h.Down? || h.Idle?)
    ensures Agrees(s.Put(w, h), where[s.HandOf(w).id := Nowhere])
  {
    var id := s.HandOf(w).id;
    Known(s, where, id);
    OneHandPerJob(s, where, w);
    assert OthersStay(s.db, s.db, id);
    Transfer(s, s.Put(w, h), where, id, Nowhere, w);
  }

  // ---- What each step does -------------------------------------------------------------------

  /** The two ways a job is lost: the thread dies, or cannot return the id to its queue, between
      the pop of a multi-type pick and the recording of the id. */
  predicate Loses(s: System, e: Event) {
    && (e.Crash? || (e.RecordFailed? && !e.returned))
    && s.HandOf(e.worker).Bare? && s.Live(s.HandOf(e.worker).id)
  }

  /** Where a step puts a job that is at p. */
  function NextPlace(cfg: Config, s: System, e: Event, id: Id, p: Place): Place {
    var there := id in s.db.blobs;
    match e
    case Submit(x, t, _) => if x == id then In(Queue(t)) else p
    case Pop(w, types) =>
      (match FirstNonEmpty(s.db, types)
       case None => p
       case Some(t) => if s.db.Tail(Queue(t)) != id then p else if |types| == 1 then In(InFlight(w)) else InHand(w))
    case Record(w) => if p == InHand(w) then In(InFlight(w)) else p
    case RecordFailed(w, returned) =>
      if p != InHand(w) then p else if returned && s.HandOf(w).Bare? then In(Queue(s.HandOf(w).jtype)) else Nowhere
    case Claim(w, _) => if s.HandOf(w) == Recorded(id) && !s.Live(id) then Nowhere else p
    case Finish(w, v, _) =>
      if s.HandOf(w) != Running(id) then p
      else if !there || v.Success? then Nowhere
      else if v.Permanent? then In(Dlq(s.db.blobs[id].jtype))
      else if !s.Live(id) then Nowhere
      else if s.db.blobs[id].retryCount + 1 >= s.db.blobs[id].maxRetries then In(Dlq(s.db.blobs[id].jtype))
      else if Delay(cfg, s.db.blobs[id].retryCount + 1) > 0 then Parked
      else In(Queue(s.db.blobs[id].jtype))
    case Cancel(x) =>
      if x != id || !s.Live(id) || p.InHand? || (p.In? && p.key.InFlight? && s.db.blobs[id].status.Pending?) then p else Nowhere
    case Requeue(x) => if x == id && there && s.db.blobs[id].status.Dead? then In(Queue(s.db.blobs[id].jtype)) else p
    case Promote(ids, _) => if id in ids && there then In(Queue(s.db.blobs[id].jtype)) else p
    case Crash(w) => if p == InHand(w) then Nowhere else p
    case Restart(w) =>
      if p != In(InFlight(w)) || (there && s.db.blobs[id].worker !in ["", w]) then p
      else if s.Live(id) then In(Queue(s.db.blobs[id].jtype)) else Nowhere
    case _ => p
  }

  /** The steps of a thread on the id in its hand, or on the one that it pops. */
  lemma ThreadPlaces(cfg: Config, s: System, where: Where, e: Event, id: Id) returns (where': Where)
    requires cfg.visibilityMs <= 0 && Agrees(s, where) && Enabled(cfg, s, e)
    requires e.Pop? || e.Record? || (e.RecordFailed? && e.returned) || e.Claim?
    ensures Agrees(Step(cfg, s, e), where') && W(where', id) == NextPlace(cfg, s, e, id, W(where, id))
  {
    where' := where;
    Known(s, where, id);
    hide Agrees;
    match e
    case Pop(w, types) =>
      var t := FirstNonEmpty(s.db, types);
      if t.Some? {
        PopMoves(s, where, w, t.value, |types| == 1);
        where' := where[s.db.Tail(Queue(t.value)) := if |types| == 1 then In(InFlight(w)) else InHand(w)];
      }
    case Record(w) =>
      RecordMoves(cfg, s, where, w);
      where' := where[s.HandOf(w).id := In(InFlight(w))];
    case RecordFailed(w, returned) =>
      RecordFailedMoves(cfg, s, where, w);
      where' := where[s.HandOf(w).id := In(Queue(s.HandOf(w).jtype))];
    case Claim(w, now) =>
      ClaimMoves(cfg, s, where, w, now);
      OneHandPerJob(s, where, w);
      where' := where[s.HandOf(w).id := if s.Live(s.HandOf(w).id) then In(InFlight(w)) else Nowhere];
  }

  lemma FinishPlaces(cfg: Config, s: System, where: Where, e: Event, id: Id) returns (where': Where)
    requires cfg.visibilityMs <= 0 && Agrees(s, where) && Enabled(cfg, s, e) && e.Finish?
    ensures Agrees(Step(cfg, s, e), where') && W(where', id) == NextPlace(cfg, s, e, id, W(where, id))
  {
    hide Agrees, Delay;
    FinishMoves(cfg, s, where, e.worker, e.verdict, e.now);
    where' := where[s.HandOf(e.worker).id := FinishTarget(cfg, s.db, s.HandOf(e.worker).id, e.verdict)];
    hide Step;
  }

  /** A thread that goes without its id. */
  lemma DropPlaces(cfg: Config, s: System, where: Where, e: Event, id: Id) returns (where': Where)
    requires cfg.visibilityMs <= 0 && Agrees(s, where) && Enabled(cfg, s, e) && !Loses(s, e)
    requires e.Crash? || (e.RecordFailed? && !e.returned)
    ensures Agrees(Step(cfg, s, e), where') && W(where', id) == NextPlace(cfg, s, e, id, W(where, id))
  {
    hide Agrees;
    Known(s, where, id);
    var h := if e.Crash? then Down else Idle;
    if s.HandOf(e.worker).Bare? {
      BareDrops(s, where, e.worker, h);
      where' := where[s.HandOf(e.worker).id := Nowhere];
    } else {
      HandDrops(s, where, e.worker, h);
      where' := where;
    }
  }

  lemma ListOf(s: System, where: Where, w: string, id: Id)
    requires Agrees(s, where)
    ensures NoDup(s.db.At(InFlight(w))) && (id in s.db.At(InFlight(w)) <==> W(where, id) == In(InFlight(w)))
  {
    hide HandsOk, JobsOk;
    assert Holds(s, In(InFlight(w)), id) <==> W(where, id) == In(InFlight(w));
  }

  lemma RestartMoves(s: System, where: Where, w: string) returns (where': Where)
    requires Agrees(s, where) && w != "" && s.HandOf(w).Down? && NoDup(s.db.At(InFlight(w)))
    ensures Agrees(s.With(Recovered(s.db, w)).Put(w, Idle), where')
    ensures forall id :: W(where', id) == if id in s.db.At(InFlight(w)) then RecoverTarget(s.db, w, id) else W(where, id)
  {
    hide Agrees, RecoveredAll, NoDup;
    where' := RecoverAllMoves(s, where, w, s.db.At(InFlight(w)));
    var s1 := s.With(Recovered(s.db, w));
    assert s1.HandOf(w) == s.HandOf(w);
    HandDrops(s1, where', w, Idle);
  }

  lemma RestartPlaces(cfg: Config, s: System, where: Where, w: string, id: Id) returns (where': Where)
    requires cfg.visibilityMs <= 0 && Agrees(s, where) && Enabled(cfg, s, Restart(w))
    ensures Agrees(Step(cfg, s, Restart(w)), where') && W(where', id) == NextPlace(cfg, s, Restart(w), id, W(where, id))
  {
    ListOf(s, where, w, id);
    hide Agrees, Recovered, NoDup;
    where' := RestartMoves(s, where, w);
    hide Enabled;
  }

  lemma AdminPlaces(cfg: Config, s: System, where: Where, e: Event, id: Id) returns (where': Where)
    requires cfg.visibilityMs <= 0 && Agrees(s, where) && (e.Cancel? || e.Requeue?)
    ensures Agrees(Step(cfg, s, e), where') && W(where', id) == NextPlace(cfg, s, e, id, W(where, id))
  {
    hide Agrees;
    where' := where;
    match e
    case Cancel(x) =>
      if Cancellable(s.db, x) {
        CancelMoves(cfg, s, where, x);
        where' := where[x := CancelTarget(s.db.blobs[x], W(where, x))];
        hide Cancelled;
      }
    case Requeue(x) =>
      if Requeueable(s.db, x) {
        RequeueMoves(s, where, x);
        where' := where[x := In(Queue(s.db.blobs[x].jtype))];
        hide Requeued;
      }
  }

  lemma OtherPlaces(cfg: Config, s: System, where: Where, e: Event, id: Id) returns (where': Where)
    requires cfg.visibilityMs <= 0 && Agrees(s, where) && Enabled(cfg, s, e)
    requires e.Submit? || e.Promote? || e.Expire? || e.Reap?
    ensures Agrees(Step(cfg, s, e), where') && W(where', id) == NextPlace(cfg, s, e, id, W(where, id))
  {
    hide Agrees, Submitted, PromotedAll;
    where' := where;
    match e
    case Submit(x, t, m) => SubmitMoves(cfg, s, where, x, t, m); where' := where[x := In(Queue(t))];
    case Promote(ids, now) => where' := PromoteAllMoves(s, where, ids);
    case Expire(x) => ExpireMoves(cfg, s, where, x); where' := where[x := W(where, x)];
    case Reap(_, _) =>
  }

  lemma StepPlaces(cfg: Config, s: System, where: Where, e: Event, id: Id) returns (where': Where)
    requires cfg.visibilityMs <= 0 && Agrees(s, where) && Enabled(cfg, s, e) && !Loses(s, e)
    ensures Agrees(Step(cfg, s, e), where') && W(where', id) == NextPlace(cfg, s, e, id, W(where, id))
  {
    hide Agrees, Step, Enabled, Loses, NextPlace;
    if e.Finish? {
      where' := FinishPlaces(cfg, s, where, e, id);
    } else if e.Restart? {
      where' := RestartPlaces(cfg, s, where, e.worker, id);
    } else if e.Crash? || (e.RecordFailed? && !e.returned) {
      where' := DropPlaces(cfg, s, where, e, id);
    } else if e.Pop? || e.Record? || e.RecordFailed? || e.Claim? {
      where' := ThreadPlaces(cfg, s, where, e, id);
    } else if e.Cancel? || e.Requeue? {
      where' := AdminPlaces(cfg, s, where, e, id);
    } else {
      where' := OtherPlaces(cfg, s, where, e, id);
    }
  }
}
