/** The queue's operations: what each does to the store as a function, and the class whose methods
    issue the Redis commands one after the other and are proved to do just that. */
module JobQueue {
  import opened Wrappers
  import opened JobModel
  import opened Backoff

  // ---- Specification -------------------------------------------------------------------------

  function Submitted(cfg: Config, db: Store, id: Id, jtype: string, maxRetries: int): Store {
    var budget := if maxRetries >= 0 then maxRetries else cfg.defaultMaxRetries;
    db.SetBlob(id, Job(jtype, Pending, "", 0, budget, "", "", false)).LPush(Queue(jtype), id)
  }

  /** The queue a multi-key BRPOP takes from: the first non-empty one in the order of the keys. */
  function FirstNonEmpty(db: Store, types: seq<string>): (r: Option<string>)
    ensures r.Some? ==> r.value in types && db.At(Queue(r.value)) != []
  {
    if types == [] then None
    else if db.At(Queue(types[0])) != [] then Some(types[0])
    else FirstNonEmpty(db, types[1..])
  }

  /** BRPOPLPUSH: the id moves from its queue to the worker's list in one command. */
  function Moved(db: Store, jtype: string, w: string): Store
    requires db.At(Queue(jtype)) != []
  { db.RPop(Queue(jtype)).LPush(InFlight(w), db.Tail(Queue(jtype))) }

  /** The second half of pick, once the id is in the worker's list. */
  function Claimed(cfg: Config, db: Store, w: string, id: Id, now: int): (Store, Option<Job>) {
    if id !in db.blobs || db.blobs[id].status.Terminal() then (db.LRem(InFlight(w), id), None)
    else
      var job := db.blobs[id].(status := Processing, worker := w, expires := false);
      var db1 := db.SetBlob(id, job);
      (if cfg.visibilityMs > 0 then db1.ZAddLease(id, now + cfg.visibilityMs) else db1, Some(job))
  }

  /** What comes of recording the popped id of a multi-type pick: done; failed, and the id went back to
      its queue; or that failed too. */
  datatype Recording = Done | Returned | Dropped

  function Picked(cfg: Config, db: Store, types: seq<string>, w: string, now: int, rec: Recording): (Store, Option<(Id, Job)>) {
    match FirstNonEmpty(db, types)
    case None => (db, None)
    case Some(t) =>
      var id := db.Tail(Queue(t));
      if |types| != 1 && rec.Returned? then (db.RPop(Queue(t)).RPush(Queue(t), id), None)
      else if |types| != 1 && rec.Dropped? then (db.RPop(Queue(t)), None)
      else
      var tracked := if |types| == 1 then Moved(db, t, w) else db.RPop(Queue(t)).RPush(InFlight(w), id);
      var (db1, got) := Claimed(cfg, tracked, w, id, now);
      (db1, if got.Some? then Some((id, got.value)) else None)
  }

  /** Every transition drops the tracking of the worker that the blob names. */
  function Untracked(cfg: Config, db: Store, id: Id, worker: string): Store {
    var db1 := if worker != "" then db.LRem(InFlight(worker), id) else db;
    if cfg.visibilityMs > 0 then db1.ZRemLease(id) else db1
  }

  function Finished(cfg: Config, db: Store, id: Id, result: string): Store {
    if id !in db.blobs then db else
      var job := db.blobs[id].(status := Completed, result := result);
      Untracked(cfg, db.SetExBlob(id, job), id, job.worker)
  }

  function Failure(cfg: Config, db: Store, id: Id, error: string, now: int): Store {
    if id !in db.blobs then db
    else if db.blobs[id].status.Terminal() then Untracked(cfg, db, id, db.blobs[id].worker)
    else Retried(cfg, db, id, error, now, Delay(cfg, db.blobs[id].retryCount + 1))
  }

  /** The part of fail that acts on a live job. */
  function Retried(cfg: Config, db: Store, id: Id, error: string, now: int, delay: int): Store
    requires id in db.blobs
  {
    var job := db.blobs[id].(retryCount := db.blobs[id].retryCount + 1, error := error);
    Rescheduled(Untracked(cfg, db, id, job.worker), id, job, now, delay)
  }

  /** Another attempt, after a delay or at once, or the end. */
  function Rescheduled(db: Store, id: Id, job: Job, now: int, delay: int): Store {
    if job.retryCount >= job.maxRetries then Buried(db, id, job)
    else if delay > 0 then db.SetBlob(id, job.(status := Pending)).ZAddDelayed(id, now + delay)
    else db.SetBlob(id, job.(status := Pending)).LPush(Queue(job.jtype), id)
  }

  function Buried(db: Store, id: Id, job: Job): Store {
    db.SetBlob(id, job.(status := Dead)).LPush(Dlq(job.jtype), id).SAddDlqAll(id)
  }

  function DeadLettered(cfg: Config, db: Store, id: Id, error: string): Store {
    if id !in db.blobs then db else
      var job := db.blobs[id].(error := error);
      Buried(Untracked(cfg, db, id, job.worker), id, job)
  }

  predicate Requeueable(db: Store, id: Id) { id in db.blobs && db.blobs[id].status.Dead? }

  function Requeued(db: Store, id: Id): Store {
    if !Requeueable(db, id) then db else
      var job := db.blobs[id].(status := Pending, retryCount := 0, error := "");
      db.LRem(Dlq(job.jtype), id).SRemDlqAll(id).SetBlob(id, job).LPush(Queue(job.jtype), id)
  }

  /** The ownership gate of recovery: the blob names this worker, or nobody. */
  predicate Owns(job: Job, w: string) { job.worker == "" || job.worker == w }

  function RecoveredOne(db: Store, w: string, id: Id): Store {
    if id !in db.blobs then db.LRem(InFlight(w), id)
    else if !Owns(db.blobs[id], w) then db
    else if db.blobs[id].status.Terminal() then db.LRem(InFlight(w), id)
    else
      var job := db.blobs[id].(status := Pending, worker := "");
      db.SetBlob(id, job).LPush(Queue(job.jtype), id).LRem(InFlight(w), id)
  }

  function RecoveredAll(db: Store, w: string, ids: seq<Id>): Store
    decreases |ids|
  {
    if ids == [] then db else
      RecoveredOne(RecoveredAll(db, w, ids[..|ids| - 1]), w, ids[|ids| - 1])
  }

  /** How many of the ids recovery puts back on their queues. */
  function Rescued(db: Store, w: string, ids: seq<Id>): nat
    decreases |ids|
  {
    if ids == [] then 0 else
      var mid, id := RecoveredAll(db, w, ids[..|ids| - 1]), ids[|ids| - 1];
      Rescued(db, w, ids[..|ids| - 1]) + if Cancellable(mid, id) && Owns(mid.blobs[id], w) then 1 else 0
  }

  lemma RecoverNext(db: Store, w: string, ids: seq<Id>, i: nat)
    requires i < |ids|
    ensures var mid := RecoveredAll(db, w, ids[..i]);
      && RecoveredAll(db, w, ids[..i + 1]) == RecoveredOne(mid, w, ids[i])
      && Rescued(db, w, ids[..i + 1]) == Rescued(db, w, ids[..i]) + if Cancellable(mid, ids[i]) && Owns(mid.blobs[ids[i]], w) then 1 else 0
  { assert ids[..i + 1][..i] == ids[..i]; }

  function Recovered(db: Store, w: string): Store {
    if w == "" then db else RecoveredAll(db, w, db.At(InFlight(w)))
  }

  function PromotedOne(db: Store, id: Id): Store {
    if id !in db.delayed then db else
      var db1 := db.ZRemDelayed(id);
      if id !in db.blobs || db.blobs[id].status.Terminal() then db1
      else db1.LPush(Queue(db.blobs[id].jtype), id)
  }

  function PromotedAll(db: Store, ids: seq<Id>): Store
    decreases |ids|
  {
    if ids == [] then db else PromotedOne(PromotedAll(db, ids[..|ids| - 1]), ids[|ids| - 1])
  }

  /** How many of the ids a sweep pushes. */
  function Pushed(db: Store, ids: seq<Id>): nat
    decreases |ids|
  {
    if ids == [] then 0 else
      var mid, id := PromotedAll(db, ids[..|ids| - 1]), ids[|ids| - 1];
      Pushed(db, ids[..|ids| - 1]) + if id in mid.delayed && Cancellable(mid, id) then 1 else 0
  }

  /** ids enumerates the members of a sorted set whose score lies in [0, now]. */
  ghost predicate DueAt(ids: seq<Id>, zset: map<Id, int>, now: int) {
    NoDup(ids) && forall id :: id in ids <==> id in zset && 0 <= zset[id] <= now
  }

  function ReapedOne(cfg: Config, db: Store, id: Id, now: int): Store {
    if id !in db.leases then db else Failure(cfg, db.ZRemLease(id), id, "visibility timeout exceeded", now)
  }

  function ReapedAll(cfg: Config, db: Store, ids: seq<Id>, now: int): Store
    decreases |ids|
  {
    if ids == [] then db else ReapedOne(cfg, ReapedAll(cfg, db, ids[..|ids| - 1], now), ids[|ids| - 1], now)
  }

  /** How many of the ids the reaper takes from a worker. */
  function Reaped(cfg: Config, db: Store, ids: seq<Id>, now: int): nat
    decreases |ids|
  {
    if ids == [] then 0 else
      var mid, id := ReapedAll(cfg, db, ids[..|ids| - 1], now), ids[|ids| - 1];
      Reaped(cfg, db, ids[..|ids| - 1], now) + if id in mid.leases && id in mid.blobs then 1 else 0
  }

  /** The job is there and not over. */
  predicate Cancellable(db: Store, id: Id) { id in db.blobs && !db.blobs[id].status.Terminal() }

  function Cancelled(cfg: Config, db: Store, id: Id): Store {
    if !Cancellable(db, id) then db else
      var was := db.blobs[id];
      var db1 := db.SetExBlob(id, was.(status := Failed, error := "cancelled"))
                 .LRem(Queue(was.jtype), id).ZRemDelayed(id);
      var db2 := if was.status.Processing? && was.worker != "" then db1.LRem(InFlight(was.worker), id) else db1;
      if cfg.visibilityMs > 0 then db2.ZRemLease(id) else db2
  }

  // ---- The class -----------------------------------------------------------------------------

  class JobQueue {
    const cfg: Config
    var blobs: map<Id, Job>
    var lists: map<Key, seq<Id>>
    var delayed: map<Id, int>
    var leases: map<Id, int>
    var dlqAll: set<Id>

    function View(): Store
      reads this
    { Store(blobs, lists, delayed, leases, dlqAll) }

    constructor (cfg: Config)
      ensures this.cfg == cfg && View() == EMPTY_STORE
    {
      this.cfg := cfg;
      blobs, lists, delayed, leases, dlqAll := map[], map[], map[], map[], {};
    }

    function At(k: Key): seq<Id>
      reads this
    { if k in lists then lists[k] else [] }

    method LRem(k: Key, id: Id)
      modifies this`lists
      ensures View() == old(View()).LRem(k, id)
    { lists := lists[k := Without(At(k), id)]; }

    method LPush(k: Key, id: Id)
      modifies this`lists
      ensures View() == old(View()).LPush(k, id)
    { lists := lists[k := [id] + At(k)]; }

    method Untrack(id: Id, worker: string)
      modifies this`lists, this`leases
      ensures View() == Untracked(cfg, old(View()), id, worker)
    {
      if worker != "" { LRem(InFlight(worker), id); }
      if cfg.visibilityMs > 0 { leases := leases - {id}; }
    }

    method Submit(id: Id, jtype: string, maxRetries: int)
      modifies this
      ensures View() == Submitted(cfg, old(View()), id, jtype, maxRetries)
    {
      var budget := cfg.defaultMaxRetries;
      if maxRetries >= 0 { budget := maxRetries; }
      blobs := blobs[id := Job(jtype, Pending, "", 0, budget, "", "", false)];
      LPush(Queue(jtype), id);
    }

    /** The part of pick after the id is in the worker's list. */
    method Claim(w: string, id: Id, now: int) returns (got: Option<Job>)
      modifies this
      ensures (View(), got) == Claimed(cfg, old(View()), w, id, now)
    {
      if id !in blobs {
        LRem(InFlight(w), id);
        return None;
      }
      var job := blobs[id];
      if job.status.Terminal() {
        LRem(InFlight(w), id);
        return None;
      }
      job := job.(status := Processing, worker := w, expires := false);
      blobs := blobs[id := job];
      if cfg.visibilityMs > 0 { leases := leases[id := now + cfg.visibilityMs]; }
      got := Some(job);
    }

    method Pick(types: seq<string>, w: string, now: int, rec: Recording) returns (picked: Option<(Id, Job)>)
      modifies this
      ensures (View(), picked) == Picked(cfg, old(View()), types, w, now, rec)
    {
      hide Claimed;
      var i := 0;
      while i < |types| && At(Queue(types[i])) == []
        invariant 0 <= i <= |types|
        invariant FirstNonEmpty(View(), types) == FirstNonEmpty(View(), types[i..])
      { i := i + 1; }
      if i == |types| { return None; }
      var source := Queue(types[i]);
      var id := At(source)[|At(source)| - 1];
      lists := lists[source := At(source)[..|At(source)| - 1]];
      if |types| == 1 {
        LPush(InFlight(w), id);
      } else if rec.Done? {
        lists := lists[InFlight(w) := At(InFlight(w)) + [id]];
      } else {
        if rec.Returned? { lists := lists[source := At(source) + [id]]; }
        return None;
      }
      var got := Claim(w, id, now);
      if got.Some? { picked := Some((id, got.value)); } else { picked := None; }
    }

    method Complete(id: Id, result: string) returns (found: bool)
      modifies this
      ensures found <==> id in old(blobs)
      ensures View() == Finished(cfg, old(View()), id, result)
    {
      if id !in blobs { return false; }
      var job := blobs[id].(status := Completed, result := result);
      blobs := blobs[id := job.(expires := true)];
      Untrack(id, job.worker);
      found := true;
    }

    method Fail(id: Id, error: string, now: int) returns (found: bool)
      modifies this
      ensures found <==> id in old(blobs)
      ensures View() == Failure(cfg, old(View()), id, error, now)
    {
      if id !in blobs { return false; }
      found := true;
      var job := blobs[id];
      Untrack(id, job.worker);
      if job.status.Terminal() { return; }
      job := job.(retryCount := job.retryCount + 1, error := error, expires := false);
      if job.retryCount < job.maxRetries {
        blobs := blobs[id := job.(status := Pending)];
        var delay := Delay(cfg, job.retryCount);
        if delay > 0 {
          delayed := delayed[id := now + delay];
        } else {
          LPush(Queue(job.jtype), id);
        }
      } else {
        blobs := blobs[id := job.(status := Dead)];
        LPush(Dlq(job.jtype), id);
        dlqAll := dlqAll + {id};
      }
    }

    method DeadLetter(id: Id, error: string) returns (found: bool)
      modifies this
      ensures found <==> id in old(blobs)
      ensures View() == DeadLettered(cfg, old(View()), id, error)
    {
      if id !in blobs { return false; }
      var job := blobs[id];
      Untrack(id, job.worker);
      job := job.(status := Dead, error := error, expires := false);
      LPush(Dlq(job.jtype), id);
      dlqAll := dlqAll + {id};
      blobs := blobs[id := job];
      found := true;
    }

    method RequeueFromDlq(id: Id) returns (done: bool)
      modifies this
      ensures done <==> Requeueable(old(View()), id)
      ensures View() == Requeued(old(View()), id)
    {
      if id !in blobs { return false; }
      var job := blobs[id];
      if job.status != Dead { return false; }
      LRem(Dlq(job.jtype), id);
      dlqAll := dlqAll - {id};
      job := job.(status := Pending, retryCount := 0, error := "", expires := false);
      blobs := blobs[id := job];
      LPush(Queue(job.jtype), id);
      done := true;
    }

    method RecoverProcessing(w: string) returns (recovered: nat)
      modifies this
      ensures View() == Recovered(old(View()), w)
      ensures recovered == if w == "" then 0 else Rescued(old(View()), w, old(At(InFlight(w))))
    {
      recovered := 0;
      if w == "" { return; }
      var ids := At(InFlight(w));
      var i := 0;
      while i < |ids|
        invariant 0 <= i <= |ids|
        invariant View() == RecoveredAll(old(View()), w, ids[..i]) && recovered == Rescued(old(View()), w, ids[..i])
      {
        RecoverNext(old(View()), w, ids, i);
        hide RecoveredAll, Rescued;
        var id := ids[i];
        i := i + 1;
        if id !in blobs {
          LRem(InFlight(w), id);
          continue;
        }
        var job := blobs[id];
        if job.worker != "" && job.worker != w { continue; }
        if job.status.Terminal() {
          LRem(InFlight(w), id);
          continue;
        }
        job := job.(status := Pending, worker := "", expires := false);
        blobs := blobs[id := job];
        LPush(Queue(job.jtype), id);
        LRem(InFlight(w), id);
        recovered := recovered + 1;
      }
      assert ids[..|ids|] == ids;
    }

    /** The order of the sweep is whatever order the snapshot came in. */
    method PromoteDueJobs(now: int) returns (moved: nat, ghost ids: seq<Id>)
      modifies this
      ensures cfg.backoffBase <= 0 ==> ids == []
      ensures cfg.backoffBase > 0 ==> DueAt(ids, old(delayed), now)
      ensures View() == PromotedAll(old(View()), ids) && moved == Pushed(old(View()), ids)
    {
      moved, ids := 0, [];
      if cfg.backoffBase <= 0 { return; }
      var due := set id | id in delayed && 0 <= delayed[id] <= now;
      ghost var all := due;
      while due != {}
        invariant due <= all && NoDup(ids)
        invariant forall id :: id in ids <==> id in all - due
        invariant View() == PromotedAll(old(View()), ids) && moved == Pushed(old(View()), ids)
      {
        var id :| id in due;
        due := due - {id};
        ghost var before := ids;
        assert id !in before;
        ids := ids + [id];
        assert ids[..|ids| - 1] == before;
        if id !in delayed { continue; }
        delayed := delayed - {id};
        if id !in blobs { continue; }
        var job := blobs[id];
        if job.status.Terminal() { continue; }
        LPush(Queue(job.jtype), id);
        moved := moved + 1;
      }
    }

    method ReapExpiredLeases(now: int) returns (reaped: nat, ghost ids: seq<Id>)
      modifies this
      ensures cfg.visibilityMs <= 0 ==> ids == []
      ensures cfg.visibilityMs > 0 ==> DueAt(ids, old(leases), now)
      ensures View() == ReapedAll(cfg, old(View()), ids, now) && reaped == Reaped(cfg, old(View()), ids, now)
    {
      reaped, ids := 0, [];
      if cfg.visibilityMs <= 0 { return; }
      var due := set id | id in leases && 0 <= leases[id] <= now;
      ghost var all := due;
      while due != {}
        invariant due <= all && NoDup(ids)
        invariant forall id :: id in ids <==> id in all - due
        invariant View() == ReapedAll(cfg, old(View()), ids, now) && reaped == Reaped(cfg, old(View()), ids, now)
      {
        var id :| id in due;
        due := due - {id};
        ghost var before := ids;
        assert id !in before;
        ids := ids + [id];
        assert ids[..|ids| - 1] == before;
        if id !in leases { continue; }
        leases := leases - {id};
        var found := Fail(id, "visibility timeout exceeded", now);
        if found { reaped := reaped + 1; }
      }
    }

    method Cancel(id: Id) returns (done: bool)
      modifies this
      ensures done <==> Cancellable(old(View()), id)
      ensures View() == Cancelled(cfg, old(View()), id)
    {
      if id !in blobs { return false; }
      var job := blobs[id];
      if job.status.Terminal() { return false; }
      var wasProcessing := job.status.Processing?;
      blobs := blobs[id := job.(status := Failed, error := "cancelled", expires := true)];
      LRem(Queue(job.jtype), id);
      delayed := delayed - {id};
      if wasProcessing && job.worker != "" { LRem(InFlight(job.worker), id); }
      if cfg.visibilityMs > 0 { leases := leases - {id}; }
      done := true;
    }
  }
}
