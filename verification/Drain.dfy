/** Retries end. However the attempts interleave, a job fails at most max(1, max_retries) times; and
    jobs that always fail all reach the dead-letter queue in a bounded number of steps. */
module Drain {
  import opened Wrappers
  import opened JobModel
  import opened Backoff
  import opened JobQueue
  import opened Workers
  import opened Placement
  import opened Whereabouts
  import opened ExactlyOnce
  import opened Durability
  import opened Outcomes

  // ---- The retry budget ----------------------------------------------------------------------

  /** How many more failures the job can take before it is dead. */
  function Left(db: Store, id: Id): nat {
    if id !in db.blobs || db.blobs[id].status.Terminal() then 0 else
      var job := db.blobs[id];
      if job.maxRetries - job.retryCount > 1 then job.maxRetries - job.retryCount else 1
  }

  /** The step ends the live job for another reason than a failure that can be retried, or its record
      expires. */
  predicate Stops(s: System, e: Event, id: Id) {
    || ((e.Cancel? || e.Expire?) && e.id == id)
    || (e.Finish? && !e.verdict.Throws? && s.HandOf(e.worker) == Running(id))
  }

  lemma FailureSpends(cfg: Config, db: Store, id: Id, error: string, now: int)
    requires Cancellable(db, id)
    ensures Left(Failure(cfg, db, id, error, now), id) == Left(db, id) - 1
  {
    hide Failure;
    FailureCharges(cfg, db, id, error, now);
  }

  /** The budget goes down by one with each failure charged and by nothing else, until the job stops. */
  lemma StepSpends(cfg: Config, s: System, e: Event, id: Id)
    requires id in s.issued && Enabled(cfg, s, e) && !Revives(s, e, id)
    ensures Left(Step(cfg, s, e).db, id) + (if Charges(s, e, id) then 1 else 0)
         == if Stops(s, e, id) then 0 else Left(s.db, id)
  {
    EachJobIsItsOwnMachine(cfg, s, e, id);
    hide Step;
  }

  /** How many times a run of events fails the job. */
  function Failures(cfg: Config, s: System, es: seq<Event>, id: Id): nat
    decreases |es|
  {
    if es == [] then 0 else
      var front := es[..|es| - 1];
      Failures(cfg, s, front, id) + if Charges(Run(cfg, s, front), es[|es| - 1], id) then 1 else 0
  }

  ghost predicate Unstopped(cfg: Config, s: System, es: seq<Event>, id: Id)
    decreases |es|
  {
    es == [] ||
    var front := es[..|es| - 1];
    Unstopped(cfg, s, front, id) && !Stops(Run(cfg, s, front), es[|es| - 1], id)
  }

  lemma {:induction false} FailuresAreCounted(cfg: Config, s: System, es: seq<Event>, id: Id)
    requires id in s.issued && Proceeds(cfg, s, es) && Unrevived(cfg, s, es, id)
    ensures id in Run(cfg, s, es).issued
    ensures Failures(cfg, s, es, id) + Left(Run(cfg, s, es).db, id) <= Left(s.db, id)
    ensures Unstopped(cfg, s, es, id) ==> Failures(cfg, s, es, id) + Left(Run(cfg, s, es).db, id) == Left(s.db, id)
    decreases |es|
  {
    hide Step, Left, Charges, Stops, Enabled, Revives;
    if es != [] {
      var front, e := es[..|es| - 1], es[|es| - 1];
      FailuresAreCounted(cfg, s, front, id);
      StepSpends(cfg, Run(cfg, s, front), e, id);
      StaysIssued(cfg, Run(cfg, s, front), e, id);
    }
  }

  lemma StaysIssued(cfg: Config, s: System, e: Event, id: Id)
    requires id in s.issued
    ensures id in Step(cfg, s, e).issued
  {}

  /** The failures that a job submitted with this budget may have: a negative one stands for the
      configured default. */
  function Allowed(cfg: Config, m: int): nat {
    var budget := if m >= 0 then m else cfg.defaultMaxRetries;
    if budget > 1 then budget else 1
  }

  /** From its submission, whatever else happens, a job fails at most max(1, max_retries) times
      before an operator requeues it, those charged by the lease reaper included; with that many
      failures it is over, and with fewer it is alive unless it was ended otherwise. */
  lemma SubmittedJobFailsAtMost(cfg: Config, s: System, id: Id, t: string, m: int, es: seq<Event>)
    requires id !in s.issued
    requires var s' := Step(cfg, s, Submit(id, t, m)); Proceeds(cfg, s', es) && Unrevived(cfg, s', es, id)
    ensures var s' := Step(cfg, s, Submit(id, t, m));
      && Failures(cfg, s', es, id) <= Allowed(cfg, m)
      && (Failures(cfg, s', es, id) == Allowed(cfg, m) ==> !Run(cfg, s', es).Live(id))
      && (Unstopped(cfg, s', es, id) ==> (Run(cfg, s', es).Live(id) <==> Failures(cfg, s', es, id) < Allowed(cfg, m)))
  {
    var s' := Step(cfg, s, Submit(id, t, m));
    assert Left(s'.db, id) == Allowed(cfg, m);
    FailuresAreCounted(cfg, s', es, id);
    var last := Run(cfg, s', es);
    assert last.Live(id) <==> Left(last.db, id) > 0;
    hide Step;
  }

  // ---- Draining ------------------------------------------------------------------------------

  /** A state that pick, fail and promote have to drain: every job is live or dead, every id still
      somewhere has its record, a running job is live, an id in a processing list is in that
      worker's hand, and a parked id has a score a sweep can reach. */
  ghost predicate Tidy(cfg: Config, s: System, where: Where) {
    && (forall id :: id in s.db.blobs ==> !s.db.blobs[id].status.Completed? && !s.db.blobs[id].status.Failed?)
    && (forall id :: W(where, id) != Nowhere ==> id in s.db.blobs)
    && (forall id :: W(where, id).In? && W(where, id).key.InFlight? ==> About(s.HandOf(W(where, id).key.worker), id))
    && (forall id :: id in s.db.delayed ==> s.db.delayed[id] >= 0 && cfg.backoffBase > 0)
    && (forall w :: s.HandOf(w).Running? ==> s.Live(s.HandOf(w).id))
  }

  ghost predicate Draining(cfg: Config, s: System, where: Where) { Agrees(s, where) && Tidy(cfg, s, where) }

  /** One attempt at job id by worker w, which leaves id at p, keeps the state tidy. */
  lemma StaysTidy(cfg: Config, s: System, s': System, where: Where, id: Id, p: Place, w: string)
    requires Tidy(cfg, s, where) && id in s.db.blobs
    requires s'.db.blobs.Keys == s.db.blobs.Keys && forall x :: x in s.db.blobs && x != id ==> s'.db.blobs[x] == s.db.blobs[x]
    requires !s'.db.blobs[id].status.Completed? && !s'.db.blobs[id].status.Failed?
    requires s'.hands == s.hands[w := s'.HandOf(w)]
    requires forall v, x :: About(s.HandOf(v), x) && (v == w || x == id) ==> v == w && x == id
    requires p.In? && p.key.InFlight? ==> About(s'.HandOf(p.key.worker), id)
    requires s'.HandOf(w).Running? ==> s'.HandOf(w).id == id && s'.Live(id)
    requires forall x :: x in s'.db.delayed ==> s'.db.delayed[x] >= 0 && cfg.backoffBase > 0
    ensures Tidy(cfg, s', where[id := p])
    ensures forall x :: x != id ==> Potential(s', where[id := p], x) == Potential(s, where, x)
  {
    var where' := where[id := p];
    forall v | v != w ensures s'.HandOf(v) == s.HandOf(v) {}
    forall x | x != id && W(where', x).In? && W(where', x).key.InFlight? ensures About(s'.HandOf(W(where', x).key.worker), x) {
      assert About(s.HandOf(W(where, x).key.worker), x);
    }
    forall v | s'.HandOf(v).Running? ensures s'.Live(s'.HandOf(v).id) {
      if v != w { assert About(s.HandOf(v), s.HandOf(v).id); }
    }
  }

  /** An attempt that gets somewhere: a pop that finds an id, the rest of its pick, its failure, or
      a sweep that finds a due job. */
  ghost predicate Productive(cfg: Config, s: System, e: Event) {
    && Enabled(cfg, s, e)
    && match e
       case Pop(w, types) => FirstNonEmpty(s.db, types).Some?
       case Record(_) => true
       case Claim(_, _) => true
       case Finish(_, v, now) => v.Throws? && now >= 0
       case Promote(ids, _) => ids != []
       case _ => false
  }

  /** How far a live job is from the start of its next failure. */
  function Rank(j: Job, p: Place): nat {
    match p
    case Parked => 4
    case In(Queue(_)) => 3
    case InHand(_) => 2
    case _ => if j.status.Processing? then 0 else 1
  }

  function Potential(s: System, where: Where, id: Id): nat {
    if s.Live(id) then 5 * Left(s.db, id) + Rank(s.db.blobs[id], W(where, id)) else 0
  }

  function Total(s: System, where: Where, ids: seq<Id>): nat {
    if ids == [] then 0 else Potential(s, where, ids[0]) + Total(s, where, ids[1..])
  }

  lemma {:induction false} TotalDrops(s: System, where: Where, s': System, where': Where, ids: seq<Id>, id: Id)
    requires forall x :: Potential(s', where', x) <= Potential(s, where, x)
    ensures Total(s', where', ids) <= Total(s, where, ids)
    ensures id in ids && Potential(s', where', id) < Potential(s, where, id) ==> Total(s', where', ids) < Total(s, where, ids)
  {
    if ids != [] { TotalDrops(s, where, s', where', ids[1..], id); }
  }

  lemma PopDrains(cfg: Config, s: System, where: Where, w: string, t: string, single: bool) returns (where': Where, id: Id)
    requires Draining(cfg, s, where) && w != "" && s.HandOf(w).Idle? && s.db.At(Queue(t)) != []
    ensures Draining(cfg, Popped(s, w, t, single), where')
    ensures id in s.issued && Potential(Popped(s, w, t, single), where', id) < Potential(s, where, id)
    ensures forall x :: x != id ==> Potential(Popped(s, w, t, single), where', x) == Potential(s, where, x)
  {
    id := s.db.Tail(Queue(t));
    var p := if single then In(InFlight(w)) else InHand(w);
    Known(s, where, id);
    assert id in s.db.At(Queue(t)) && W(where, id) == In(Queue(t));
    PopMoves(s, where, w, t, single);
    where' := where[id := p];
    StaysTidy(cfg, s, Popped(s, w, t, single), where, id, p, w);
  }

  lemma RecordDrains(cfg: Config, s: System, where: Where, w: string) returns (where': Where)
    requires Draining(cfg, s, where) && s.HandOf(w).Bare?
    ensures var s', id := Step(cfg, s, Record(w)), s.HandOf(w).id;
      && Draining(cfg, s', where') && id in s.issued && Potential(s', where', id) < Potential(s, where, id)
      && forall x :: x != id ==> Potential(s', where', x) == Potential(s, where, x)
  {
    var id, s' := s.HandOf(w).id, Step(cfg, s, Record(w));
    Known(s, where, id);
    OneHandPerJob(s, where, w);
    RecordMoves(cfg, s, where, w);
    where' := where[id := In(InFlight(w))];
    StaysTidy(cfg, s, s', where, id, In(InFlight(w)), w);
  }

  lemma ClaimDrains(cfg: Config, s: System, where: Where, w: string, now: int) returns (where': Where)
    requires Draining(cfg, s, where) && s.HandOf(w).Recorded? && cfg.visibilityMs <= 0
    ensures var s', id := Step(cfg, s, Claim(w, now)), s.HandOf(w).id;
      && Draining(cfg, s', where') && id in s.issued && Potential(s', where', id) < Potential(s, where, id)
      && forall x :: x != id ==> Potential(s', where', x) == Potential(s, where, x)
  {
    var id, s' := s.HandOf(w).id, Step(cfg, s, Claim(w, now));
    Known(s, where, id);
    OneHandPerJob(s, where, w);
    assert s.Live(id);
    ClaimMoves(cfg, s, where, w, now);
    where' := where[id := In(InFlight(w))];
    StaysTidy(cfg, s, s', where, id, In(InFlight(w)), w);
  }

  /** What another attempt, or the end, does to the records and the delayed set. */
  lemma RescheduleEffect(db: Store, id: Id, job: Job, now: int, delay: int)
    ensures var db' := Rescheduled(db, id, job, now, delay);
      && (db'.blobs == db.blobs[id := job.(status := Pending, expires := false)]
          || db'.blobs == db.blobs[id := job.(status := Dead, expires := false)])
      && (db'.delayed == db.delayed || (delay > 0 && db'.delayed == db.delayed[id := now + delay]))
  {}

  lemma FailureEffect(cfg: Config, db: Store, id: Id, error: string, now: int)
    requires id in db.blobs && !db.blobs[id].status.Terminal()
    ensures var db' := Failure(cfg, db, id, error, now);
      && db'.blobs.Keys == db.blobs.Keys && (forall x :: x in db.blobs && x != id ==> db'.blobs[x] == db.blobs[x])
      && (db'.blobs[id].status.Pending? || db'.blobs[id].status.Dead?)
      && (db'.delayed == db.delayed
          || (cfg.backoffBase > 0 && id in db'.delayed && db'.delayed[id] >= now && db'.delayed - {id} == db.delayed - {id}))
  {
    var job := db.blobs[id].(retryCount := db.blobs[id].retryCount + 1, error := error);
    var db1, delay := Untracked(cfg, db, id, job.worker), Delay(cfg, job.retryCount);
    assert db1.blobs == db.blobs && db1.delayed == db.delayed;
    assert delay > 0 ==> cfg.backoffBase > 0;
    RescheduleEffect(db1, id, job, now, delay);
    assert Failure(cfg, db, id, error, now) == Rescheduled(db1, id, job, now, delay);
  }

  lemma FailDrains(cfg: Config, s: System, where: Where, w: string, error: string, now: int) returns (where': Where)
    requires Draining(cfg, s, where) && s.HandOf(w).Running? && cfg.visibilityMs <= 0 && now >= 0
    ensures var s', id := Step(cfg, s, Finish(w, Throws(error), now)), s.HandOf(w).id;
      && Draining(cfg, s', where') && id in s.issued && Potential(s', where', id) < Potential(s, where, id)
      && forall x :: x != id ==> Potential(s', where', x) == Potential(s, where, x)
  {
    hide Agrees, Failure, Delay;
    var id, s' := s.HandOf(w).id, Step(cfg, s, Finish(w, Throws(error), now));
    Known(s, where, id);
    OneHandPerJob(s, where, w);
    FinishMoves(cfg, s, where, w, Throws(error), now);
    var p := FinishTarget(cfg, s.db, id, Throws(error));
    where' := where[id := p];
    FailureEffect(cfg, s.db, id, error, now);
    FailureSpends(cfg, s.db, id, error, now);
    forall x | x in s'.db.delayed ensures s'.db.delayed[x] >= 0 && cfg.backoffBase > 0 {
      if x != id { assert x in s'.db.delayed - {id} && (s'.db.delayed - {id})[x] == (s.db.delayed - {id})[x]; }
    }
    StaysTidy(cfg, s, s', where, id, p, w);
  }

  lemma {:induction false} PromotionTakes(db: Store, ids: seq<Id>)
    ensures forall x :: x in PromotedAll(db, ids).delayed ==> x in db.delayed && PromotedAll(db, ids).delayed[x] == db.delayed[x]
    decreases |ids|
  {
    if ids != [] { PromotionTakes(db, ids[..|ids| - 1]); }
  }

  lemma RecordedIsIssued(s: System, where: Where, id: Id)
    requires Agrees(s, where) && id in s.db.blobs
    ensures id in s.issued
  {}

  lemma PromoteDrains(cfg: Config, s: System, where: Where, ids: seq<Id>, now: int) returns (where': Where)
    requires Draining(cfg, s, where) && Enabled(cfg, s, Promote(ids, now)) && ids != []
    ensures var s' := Step(cfg, s, Promote(ids, now));
      && Draining(cfg, s', where') && ids[0] in s.issued && Potential(s', where', ids[0]) < Potential(s, where, ids[0])
      && forall x :: Potential(s', where', x) <= Potential(s, where, x)
  {
    hide Agrees;
    where' := PromoteAllMoves(s, where, ids);
    PromotionTakes(s.db, ids);
    var s' := Step(cfg, s, Promote(ids, now));
    forall id | id in ids ensures W(where, id) == Parked && s.Live(id) && id in s.issued {
      Known(s, where, id);
      RecordedIsIssued(s, where, id);
    }
    assert ids[0] in ids;
    assert forall v :: s'.HandOf(v) == s.HandOf(v);
  }

  lemma StepAdvances(cfg: Config, s: System, where: Where, e: Event) returns (where': Where, id: Id)
    requires cfg.visibilityMs <= 0 && Draining(cfg, s, where) && Productive(cfg, s, e)
    ensures Draining(cfg, Step(cfg, s, e), where') && Step(cfg, s, e).issued == s.issued && id in s.issued
    ensures Potential(Step(cfg, s, e), where', id) < Potential(s, where, id)
    ensures forall x :: Potential(Step(cfg, s, e), where', x) <= Potential(s, where, x)
  {
    match e
    case Pop(w, types) =>
      where', id := PopDrains(cfg, s, where, w, FirstNonEmpty(s.db, types).value, |types| == 1);
      assert Step(cfg, s, e) == Popped(s, w, FirstNonEmpty(s.db, types).value, |types| == 1);
    case Record(w) => id := s.HandOf(w).id; where' := RecordDrains(cfg, s, where, w);
    case Claim(w, now) => id := s.HandOf(w).id; where' := ClaimDrains(cfg, s, where, w, now);
    case Finish(w, v, now) => id := s.HandOf(w).id; where' := FailDrains(cfg, s, where, w, v.error, now);
    case Promote(due, now) => id := due[0]; where' := PromoteDrains(cfg, s, where, due, now);
  }

  lemma StepDrains(cfg: Config, s: System, where: Where, e: Event, ids: seq<Id>) returns (where': Where)
    requires cfg.visibilityMs <= 0 && Draining(cfg, s, where) && Productive(cfg, s, e) && forall id :: id in s.issued ==> id in ids
    ensures Draining(cfg, Step(cfg, s, e), where') && Step(cfg, s, e).issued == s.issued
    ensures Total(Step(cfg, s, e), where', ids) < Total(s, where, ids)
  {
    var id;
    where', id := StepAdvances(cfg, s, where, e);
    TotalDrops(s, where, Step(cfg, s, e), where', ids, id);
  }

  ghost predicate AllProductive(cfg: Config, s: System, es: seq<Event>)
    decreases |es|
  {
    es == [] ||
    var front := es[..|es| - 1];
    AllProductive(cfg, s, front) && Productive(cfg, Run(cfg, s, front), es[|es| - 1])
  }

  lemma {:induction false} DrainsWithin(cfg: Config, s: System, where: Where, es: seq<Event>, ids: seq<Id>) returns (where': Where)
    requires cfg.visibilityMs <= 0 && Draining(cfg, s, where) && AllProductive(cfg, s, es) && forall id :: id in s.issued ==> id in ids
    ensures Draining(cfg, Run(cfg, s, es), where') && Run(cfg, s, es).issued == s.issued
    ensures |es| + Total(Run(cfg, s, es), where', ids) <= Total(s, where, ids)
    decreases |es|
  {
    where' := where;
    if es != [] {
      var front := es[..|es| - 1];
      var mid := DrainsWithin(cfg, s, where, front, ids);
      where' := StepDrains(cfg, Run(cfg, s, front), mid, es[|es| - 1], ids);
    }
  }

  /** While a job is live and a worker thread is up, something productive can happen next. */
  lemma SomethingToDo(cfg: Config, s: System, where: Where, w: string, id: Id) returns (e: Event)
    requires Draining(cfg, s, where) && !s.HandOf(w).Down? && s.Live(id)
    ensures Productive(cfg, s, e)
  {
    Known(s, where, id);
    assert HandOk(s, where, w);
    var p := W(where, id);
    match s.HandOf(w)
    case Bare(_, _) => e := Record(w);
    case Recorded(_) => e := Claim(w, 0);
    case Running(_) => e := Finish(w, Throws(""), 0);
    case Idle =>
      match p
      case Parked =>
        e := SweepFor(cfg, s, id);
      case InHand(v) => e := Record(v);
      case In(k) =>
        if k.Queue? {
          e := Pop(w, [k.jtype]);
          assert FirstNonEmpty(s.db, [k.jtype]) == Some(k.jtype);
        } else {
          assert About(s.HandOf(k.worker), id);
          e := match s.HandOf(k.worker)
               case Bare(_, _) => Record(k.worker)
               case Recorded(_) => Claim(k.worker, 0)
               case _ => Finish(k.worker, Throws(""), 0);
        }
  }

  lemma SweepFor(cfg: Config, s: System, id: Id) returns (e: Event)
    requires id in s.db.delayed && s.db.delayed[id] >= 0 && cfg.backoffBase > 0
    ensures Productive(cfg, s, e)
  {
    var now := s.db.delayed[id];
    var ids := Enumerate(set x | x in s.db.delayed && 0 <= s.db.delayed[x] <= now);
    assert id in ids;
    e := Promote(ids, now);
  }

  lemma Enumerate(ids: set<Id>) returns (l: seq<Id>)
    ensures NoDup(l) && forall x :: x in l <==> x in ids
  {
    if ids == {} { return []; }
    var x :| x in ids;
    var rest := Enumerate(ids - {x});
    l := [x] + rest;
  }

  /** Jobs that always fail drain. Any sequence of productive steps is no longer than the work that
      was left at its start, and one that cannot be continued has left every job dead. */
  lemma AlwaysFailingJobsDie(cfg: Config, s: System, where: Where, es: seq<Event>, ids: seq<Id>, w: string)
    requires cfg.visibilityMs <= 0 && Draining(cfg, s, where) && AllProductive(cfg, s, es)
    requires forall id :: id in s.issued ==> id in ids
    ensures |es| <= Total(s, where, ids)
    ensures var s' := Run(cfg, s, es);
      !s'.HandOf(w).Down? && (forall e :: !Productive(cfg, s', e)) ==> forall id :: id in s'.db.blobs ==> s'.db.blobs[id].status.Dead?
  {
    var where' := DrainsWithin(cfg, s, where, es, ids);
    var s' := Run(cfg, s, es);
    if !s'.HandOf(w).Down? && forall e :: !Productive(cfg, s', e) {
      forall id | id in s'.db.blobs ensures s'.db.blobs[id].status.Dead? {
        if s'.Live(id) { var e := SomethingToDo(cfg, s', where', w, id); }
      }
    }
  }

  // ---- From an empty queue -------------------------------------------------------------------

  /** The steps that one submitted job may take in all: five for each failure it is allowed, of
      which the first needs no promotion. */
  function Budget(cfg: Config, m: int): nat { 5 * Allowed(cfg, m) + 3 }

  /** A worker starts, and then these jobs are submitted. */
  function Batch(cfg: Config, w: string, ids: seq<Id>, t: string, m: int): System
    decreases |ids|
  {
    if ids == [] then Step(cfg, START, Restart(w))
    else Step(cfg, Batch(cfg, w, ids[..|ids| - 1], t, m), Submit(ids[|ids| - 1], t, m))
  }

  lemma StartDrains(cfg: Config, w: string)
    requires w != ""
    ensures Draining(cfg, Step(cfg, START, Restart(w)), map[])
    ensures Step(cfg, START, Restart(w)) == System(EMPTY_STORE, map[w := Idle], {})
  {
    assert Recovered(EMPTY_STORE, w) == EMPTY_STORE;
    var s := System(EMPTY_STORE, map[w := Idle], {});
    assert Step(cfg, START, Restart(w)) == s;
    forall v ensures HandOk(s, map[], v) {}
  }

  lemma SubmitDrains(cfg: Config, s: System, where: Where, id: Id, t: string, m: int, w: string)
    requires Draining(cfg, s, where) && id !in s.issued && s.hands == map[w := Idle]
    requires forall x :: Potential(s, where, x) <= Budget(cfg, m)
    ensures var s', where' := Step(cfg, s, Submit(id, t, m)), where[id := In(Queue(t))];
      && Draining(cfg, s', where') && s'.hands == s.hands && s'.issued == s.issued + {id}
      && s'.db.blobs.Keys == s.db.blobs.Keys + {id}
      && forall x :: Potential(s', where', x) <= Budget(cfg, m)
  {
    var s', where' := Step(cfg, s, Submit(id, t, m)), where[id := In(Queue(t))];
    SubmitMoves(cfg, s, where, id, t, m);
    SubmitIsTidy(cfg, s, where, id, t, m);
    SubmitAddsItsBudget(cfg, s, where, id, t, m);
    forall x ensures Potential(s', where', x) <= Budget(cfg, m) {
      if x != id { assert Potential(s', where', x) == Potential(s, where, x); }
    }
  }

  lemma {:induction false} BatchDrains(cfg: Config, w: string, ids: seq<Id>, t: string, m: int) returns (where: Where)
    requires w != "" && NoDup(ids)
    ensures var s := Batch(cfg, w, ids, t, m);
      && Draining(cfg, s, where) && s.hands == map[w := Idle]
      && (forall id :: id in s.issued <==> id in ids) && s.db.blobs.Keys == s.issued
      && forall id :: Potential(s, where, id) <= Budget(cfg, m)
    decreases |ids|
  {
    if ids == [] {
      StartDrains(cfg, w);
      where := map[];
    } else {
      var front, id := ids[..|ids| - 1], ids[|ids| - 1];
      var s := Batch(cfg, w, front, t, m);
      where := BatchDrains(cfg, w, front, t, m);
      SubmitDrains(cfg, s, where, id, t, m, w);
      where := where[id := In(Queue(t))];
      assert forall x :: x in ids <==> x in front || x == id;
    }
  }

  lemma SubmitIsTidy(cfg: Config, s: System, where: Where, id: Id, t: string, m: int)
    requires Tidy(cfg, s, where) && s.db.blobs.Keys <= s.issued && id !in s.issued
    requires forall v :: !s.HandOf(v).Running? || s.HandOf(v).id != id
    ensures Tidy(cfg, Step(cfg, s, Submit(id, t, m)), where[id := In(Queue(t))])
  {
    var s', where' := Step(cfg, s, Submit(id, t, m)), where[id := In(Queue(t))];
    assert s'.db.delayed == s.db.delayed && s'.hands == s.hands;
    assert s'.db.blobs == s.db.blobs[id := s'.db.blobs[id]] && s'.db.blobs[id].status.Pending?;
    hide Tidy, Step, Submitted;
    AddingIsTidy(cfg, s, s', where, id, t);
  }

  lemma AddingIsTidy(cfg: Config, s: System, s': System, where: Where, id: Id, t: string)
    requires Tidy(cfg, s, where) && id !in s.db.blobs && s'.db.delayed == s.db.delayed && s'.hands == s.hands
    requires id in s'.db.blobs && s'.db.blobs == s.db.blobs[id := s'.db.blobs[id]] && s'.db.blobs[id].status.Pending?
    requires forall v :: !s.HandOf(v).Running? || s.HandOf(v).id != id
    ensures Tidy(cfg, s', where[id := In(Queue(t))])
  {
    var where' := where[id := In(Queue(t))];
    assert forall v :: s'.HandOf(v) == s.HandOf(v);
    assert forall x :: x != id ==> W(where', x) == W(where, x);
  }

  lemma SubmitAddsItsBudget(cfg: Config, s: System, where: Where, id: Id, t: string, m: int)
    requires s.db.blobs.Keys <= s.issued && id !in s.issued
    ensures var s' := Step(cfg, s, Submit(id, t, m));
      && Potential(s', where[id := In(Queue(t))], id) <= Budget(cfg, m)
      && forall x :: x != id ==> Potential(s', where[id := In(Queue(t))], x) == Potential(s, where, x)
  {}

  lemma {:induction false} TotalIsBounded(s: System, where: Where, ids: seq<Id>, b: nat)
    requires forall id :: Potential(s, where, id) <= b
    ensures Total(s, where, ids) <= |ids| * b
  {
    if ids != [] {
      TotalIsBounded(s, where, ids[1..], b);
      Distribute(|ids[1..]|, b);
    }
  }

  lemma Distribute(n: nat, b: nat)
    ensures (n + 1) * b == n * b + b
  {}

  /** Failing, popping and promoting take no worker down and lose no record. */
  lemma {:induction false} ProductiveLosesNothing(cfg: Config, s: System, es: seq<Event>, w: string)
    requires AllProductive(cfg, s, es) && !s.HandOf(w).Down?
    ensures !Run(cfg, s, es).HandOf(w).Down? && s.db.blobs.Keys <= Run(cfg, s, es).db.blobs.Keys
    decreases |es|
  {
    if es != [] {
      var front, e := es[..|es| - 1], es[|es| - 1];
      ProductiveLosesNothing(cfg, s, front, w);
      StepLosesNothing(cfg, Run(cfg, s, front), e, w);
    }
  }

  lemma FailureKeepsRecords(cfg: Config, db: Store, x: Id, error: string, now: int)
    ensures db.blobs.Keys <= Failure(cfg, db, x, error, now).blobs.Keys
  {
    hide Untracked, Rescheduled, Delay;
    if x in db.blobs {
      var job := db.blobs[x].(retryCount := db.blobs[x].retryCount + 1, error := error);
      UntrackingKeepsRecords(cfg, db, x, job.worker);
      RescheduleEffect(Untracked(cfg, db, x, job.worker), x, job, now, Delay(cfg, job.retryCount));
    }
  }

  lemma ClaimKeepsRecords(cfg: Config, db: Store, w: string, x: Id, now: int)
    ensures db.blobs.Keys <= Claimed(cfg, db, w, x, now).0.blobs.Keys
  {}

  lemma StepLosesNothing(cfg: Config, s: System, e: Event, w: string)
    requires Productive(cfg, s, e) && !s.HandOf(w).Down?
    ensures !Step(cfg, s, e).HandOf(w).Down? && s.db.blobs.Keys <= Step(cfg, s, e).db.blobs.Keys
  {
    hide Failure, PromotedAll, Claimed;
    match e
    case Promote(ids, now) => PromotionKeepsRecords(s.db, ids);
    case Finish(v, Throws(error), now) => FailureKeepsRecords(cfg, s.db, s.HandOf(v).id, error, now);
    case Claim(v, now) => ClaimKeepsRecords(cfg, s.db, v, s.HandOf(v).id, now);
    case _ =>
  }

  /** n jobs submitted to an empty queue, each allowed m failures, that always fail: no productive
      run of theirs is longer than n * (5 * max(1, m) + 3) steps, and one that cannot go on has
      left them all dead. */
  lemma AFailingBatchDies(cfg: Config, w: string, ids: seq<Id>, t: string, m: int, es: seq<Event>)
    requires w != "" && NoDup(ids) && cfg.visibilityMs <= 0
    requires AllProductive(cfg, Batch(cfg, w, ids, t, m), es)
    ensures |es| <= |ids| * Budget(cfg, m)
    ensures var s' := Run(cfg, Batch(cfg, w, ids, t, m), es);
      (forall e :: !Productive(cfg, s', e)) ==> forall id :: id in ids ==> id in s'.db.blobs && s'.db.blobs[id].status.Dead?
  {
    var s := Batch(cfg, w, ids, t, m);
    var where := BatchDrains(cfg, w, ids, t, m);
    TotalIsBounded(s, where, ids, Budget(cfg, m));
    AlwaysFailingJobsDie(cfg, s, where, es, ids, w);
    ProductiveLosesNothing(cfg, s, es, w);
  }
}
