/** The queue as a distributed protocol: any number of worker threads, promoters, a cancelling
    admin, crashes and restarts, interleaved one operation at a time. `pick` is cut into the
    pop, the recording of the id in the worker's list, and the claim, because a crash can fall
    between any two of them. */
module Workers {
  import opened Wrappers
  import opened JobModel
  import opened Backoff
  import opened JobQueue

  /** What a worker thread holds. `Bare` is an id that a multi-type pick has popped but not yet
      recorded in the worker's list; `Recorded` is in the list but not claimed. */
  datatype Hand = Down | Idle | Bare(id: Id, jtype: string) | Recorded(id: Id) | Running(id: Id)

  datatype System = System(db: Store, hands: map<string, Hand>, issued: set<Id>) {
    function HandOf(w: string): Hand { if w in hands then hands[w] else Down }
    function Put(w: string, h: Hand): System { this.(hands := hands[w := h]) }
    function With(db1: Store): System { this.(db := db1) }
    predicate Live(id: Id) { id in db.blobs && !db.blobs[id].status.Terminal() }
  }

  const START := System(EMPTY_STORE, map[], {})

  datatype Verdict = Success(result: string) | Throws(error: string) | Permanent(error: string)

  datatype Event =
    | Submit(id: Id, jtype: string, maxRetries: int)
    | Pop(worker: string, types: seq<string>)
    | Record(worker: string)
    | RecordFailed(worker: string, returned: bool)
    | Claim(worker: string, now: int)
    | Finish(worker: string, verdict: Verdict, now: int)
    | Cancel(id: Id)
    | Requeue(id: Id)
    | Promote(ids: seq<Id>, now: int)
    | Reap(ids: seq<Id>, now: int)
    | Crash(worker: string)
    | Restart(worker: string)
    | Expire(id: Id)

  /** When an event can happen: ids come from a UUID generator, a thread follows the worker loop
      (pick, then exactly one of complete, fail, dead_letter), recovery runs before a restarted
      thread picks, a sweep works through the snapshot it took, and Redis expires only TTL'd
      blobs. Worker threads have non-empty names. */
  ghost predicate Enabled(cfg: Config, s: System, e: Event) {
    match e
    case Submit(id, _, _) => id !in s.issued
    case Pop(w, _) => w != "" && s.HandOf(w).Idle?
    case Record(w) => s.HandOf(w).Bare?
    case RecordFailed(w, _) => s.HandOf(w).Bare?
    case Claim(w, _) => s.HandOf(w).Recorded?
    case Finish(w, _, _) => s.HandOf(w).Running?
    case Cancel(_) => true
    case Requeue(_) => true
    case Promote(ids, now) => cfg.backoffBase > 0 && DueAt(ids, s.db.delayed, now)
    case Reap(ids, now) => cfg.visibilityMs > 0 && DueAt(ids, s.db.leases, now)
    case Crash(w) => !s.HandOf(w).Down?
    case Restart(w) => w != "" && s.HandOf(w).Down?
    case Expire(id) => id in s.db.blobs && s.db.blobs[id].expires
  }

  function Settled(cfg: Config, db: Store, id: Id, v: Verdict, now: int): Store {
    match v
    case Success(result) => Finished(cfg, db, id, result)
    case Throws(error) => Failure(cfg, db, id, error, now)
    case Permanent(error) => DeadLettered(cfg, db, id, error)
  }

  function Popped(s: System, w: string, t: string, single: bool): System
    requires s.db.At(Queue(t)) != []
  {
    var id := s.db.Tail(Queue(t));
    if single then s.With(Moved(s.db, t, w)).Put(w, Recorded(id))
    else s.With(s.db.RPop(Queue(t))).Put(w, Bare(id, t))
  }

  function Step(cfg: Config, s: System, e: Event): System {
    match e
    case Submit(id, t, m) => s.With(Submitted(cfg, s.db, id, t, m)).(issued := s.issued + {id})
    case Pop(w, types) =>
      (match FirstNonEmpty(s.db, types)
       case None => s
       case Some(t) => Popped(s, w, t, |types| == 1))
    case Record(w) =>
      (match s.HandOf(w)
       case Bare(id, _) => s.With(s.db.RPush(InFlight(w), id)).Put(w, Recorded(id))
       case _ => s)
    case RecordFailed(w, returned) =>
      (match s.HandOf(w)
       case Bare(id, t) => (if returned then s.With(s.db.RPush(Queue(t), id)) else s).Put(w, Idle)
       case _ => s)
    case Claim(w, now) =>
      (match s.HandOf(w)
       case Recorded(id) =>
         var (db1, got) := Claimed(cfg, s.db, w, id, now);
         s.With(db1).Put(w, if got.Some? then Running(id) else Idle)
       case _ => s)
    case Finish(w, v, now) =>
      (match s.HandOf(w)
       case Running(id) => s.With(Settled(cfg, s.db, id, v, now)).Put(w, Idle)
       case _ => s)
    case Cancel(id) => s.With(Cancelled(cfg, s.db, id))
    case Requeue(id) => s.With(Requeued(s.db, id))
    case Promote(ids, now) => s.With(PromotedAll(s.db, ids))
    case Reap(ids, now) => s.With(ReapedAll(cfg, s.db, ids, now))
    case Crash(w) => s.Put(w, Down)
    case Restart(w) => s.With(Recovered(s.db, w)).Put(w, Idle)
    case Expire(id) => s.With(s.db.(blobs := s.db.blobs - {id}))
  }

  function Run(cfg: Config, s: System, es: seq<Event>): System
    decreases |es|
  { if es == [] then s else Step(cfg, Run(cfg, s, es[..|es| - 1]), es[|es| - 1]) }

  // ---- Places --------------------------------------------------------------------------------

  /** Where a job id can be. `Nowhere` is right for a job that is over. */
  datatype Place = In(key: Key) | Parked | InHand(worker: string) | Nowhere

  predicate Holds(s: System, p: Place, id: Id) {
    match p
    case In(k) => id in s.db.At(k)
    case Parked => id in s.db.delayed
    case InHand(w) => s.HandOf(w).Bare? && s.HandOf(w).id == id
    case Nowhere => false
  }

  type Where = map<Id, Place>

  function W(where: Where, id: Id): Place { if id in where then where[id] else Nowhere }

  ghost predicate Placed(s: System, where: Where) {
    && (forall p: Place, id: Id :: p != Nowhere ==> (Holds(s, p, id) <==> W(where, id) == p))
    && Clean(s.db.lists)
    && (forall id :: id in s.db.dlqAll <==> W(where, id).In? && W(where, id).key.Dlq?)
    && where.Keys <= s.issued
    && s.db.leases == map[]
  }

  /** What a job's record says about the one place its id may be in. */
  predicate JobOk(j: Job, p: Place) {
    && (j.status.Dead? <==> p == In(Dlq(j.jtype)))
    && (p.In? && p.key.Dlq? ==> j.status.Dead?)
    && (!j.status.Terminal() ==> p.Parked? || p.InHand? || p == In(Queue(j.jtype)) || (p.In? && p.key.InFlight?))
    && (p.Parked? ==> j.status.Pending?)
    && (p.In? && p.key.Queue? ==> p.key.jtype == j.jtype && !j.status.Processing?)
    && (p.InHand? ==> !j.status.Processing?)
    && (j.status.Processing? ==> j.worker != "" && p == In(InFlight(j.worker)))
    && (j.expires ==> j.status.Completed? || j.status.Failed?)
    && (!j.status.Terminal() ==> j.retryCount == 0 || 0 < j.retryCount < j.maxRetries)
  }

  ghost predicate JobsOk(s: System, where: Where) {
    && (forall id :: id in s.db.blobs ==> JobOk(s.db.blobs[id], W(where, id)))
    && (forall id :: id !in s.db.blobs ==> !W(where, id).Parked? && !(W(where, id).In? && W(where, id).key.Dlq?))
    && s.db.blobs.Keys <= s.issued
  }

  predicate HandOk(s: System, where: Where, w: string) {
    match s.HandOf(w)
    case Down => true
    case Idle => w != ""
    case Bare(id, t) => w != "" && id in s.issued && (id in s.db.blobs ==> s.db.blobs[id].jtype == t)
    case Recorded(id) =>
      w != "" && W(where, id) == In(InFlight(w)) && (id in s.db.blobs ==> !s.db.blobs[id].status.Processing?)
    case Running(id) =>
      && w != "" && id in s.issued
      && if s.Live(id) then s.db.blobs[id].status.Processing? && s.db.blobs[id].worker == w
         else W(where, id) == Nowhere && (id in s.db.blobs ==> s.db.blobs[id].status.Failed?)
  }

  ghost predicate HandsOk(s: System, where: Where) {
    && (forall w :: HandOk(s, where, w))
    && (forall v, w :: s.HandOf(v).Running? && s.HandOf(w) == s.HandOf(v) ==> v == w)
  }

  ghost predicate Agrees(s: System, where: Where) { Placed(s, where) && JobsOk(s, where) && HandsOk(s, where) }

  ghost predicate Inv(s: System) { exists where: Where :: Agrees(s, where) }
}
