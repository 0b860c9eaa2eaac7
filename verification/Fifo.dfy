/** The order of a queue, and when a failed job is due again. */
module Fifo {
  import opened Wrappers
  import opened PowersOfTwo
  import opened JobModel
  import opened Backoff
  import opened JobQueue
  import opened Workers
  import Placement
  import Whereabouts
  import opened Durability
  import opened Stranding

  /** The ids of a queue, the next one to be popped first. */
  function Waiting(db: Store, t: string): (r: seq<Id>)
    ensures |r| == |db.At(Queue(t))|
  {
    var l := db.At(Queue(t));
    seq(|l|, i requires 0 <= i < |l| => l[|l| - 1 - i])
  }

  /** A submitted job waits behind all that wait already, and no other queue changes. */
  lemma SubmitGoesLast(cfg: Config, db: Store, id: Id, t: string, m: int, u: string)
    ensures Waiting(Submitted(cfg, db, id, t, m), t) == Waiting(db, t) + [id]
    ensures u != t ==> Waiting(Submitted(cfg, db, id, t, m), u) == Waiting(db, u)
  {
    var db' := Submitted(cfg, db, id, t, m);
    assert db'.At(Queue(t)) == [id] + db.At(Queue(t));
    assert u != t ==> db'.At(Queue(u)) == db.At(Queue(u));
  }

  /** These jobs submitted one after the other. */
  function SubmittedAll(cfg: Config, db: Store, ids: seq<Id>, t: string, m: int): Store
    decreases |ids|
  { if ids == [] then db else Submitted(cfg, SubmittedAll(cfg, db, ids[..|ids| - 1], t, m), ids[|ids| - 1], t, m) }

  /** Submissions in a row wait in that order, behind what waited before, and no other queue changes. */
  lemma {:induction false} SubmissionsKeepTheirOrder(cfg: Config, db: Store, ids: seq<Id>, t: string, m: int, u: string)
    ensures Waiting(SubmittedAll(cfg, db, ids, t, m), t) == Waiting(db, t) + ids
    ensures u != t ==> Waiting(SubmittedAll(cfg, db, ids, t, m), u) == Waiting(db, u)
    decreases |ids|
  {
    hide Submitted, Waiting;
    if ids == [] {
      assert Waiting(db, t) + [] == Waiting(db, t);
    } else {
      var front, last := ids[..|ids| - 1], ids[|ids| - 1];
      SubmissionsKeepTheirOrder(cfg, db, front, t, m, u);
      SubmitGoesLast(cfg, SubmittedAll(cfg, db, front, t, m), last, t, m, u);
      assert Waiting(db, t) + front + [last] == Waiting(db, t) + ids;
    }
  }

  // ---- First in, first out -------------------------------------------------------------------

  /** In the list, whose last is popped first, every a comes before every b. */
  ghost predicate Precedes(l: seq<Id>, a: Id, b: Id) {
    forall i, j :: 0 <= i < |l| && 0 <= j < |l| && l[i] == a && l[j] == b ==> j < i
  }

  lemma PushedBehind(more: seq<Id>, l: seq<Id>, a: Id, b: Id)
    requires Precedes(l, a, b) && a !in more
    ensures Precedes(more + l, a, b)
  {
    assert forall k :: 0 <= k < |more| ==> more[k] in more;
  }

  lemma {:induction false} RemovalKeepsOrder(l: seq<Id>, x: Id, a: Id, b: Id)
    requires Precedes(l, a, b) && a != b
    ensures Precedes(Without(l, x), a, b)
    decreases |l|
  {
    if l != [] {
      var front, last := l[..|l| - 1], l[|l| - 1];
      assert forall k :: 0 <= k < |front| ==> l[k] == front[k];
      RemovalKeepsOrder(front, x, a, b);
      assert last == b ==> forall k :: 0 <= k < |front| ==> front[k] != a;
      assert last == b ==> a !in Without(front, x);
    }
  }

  /** From db to db' only other jobs than id have come to the queue, behind what was there. */
  ghost predicate Behind(db: Store, db': Store, t: string, id: Id) {
    exists more: seq<Id> :: id !in more && db'.At(Queue(t)) == more + db.At(Queue(t))
  }

  lemma SameIsBehind(db: Store, db': Store, t: string, id: Id)
    requires db'.At(Queue(t)) == db.At(Queue(t))
    ensures Behind(db, db', t, id)
  { assert [] + db.At(Queue(t)) == db'.At(Queue(t)) && id !in []; }

  lemma OneIsBehind(db: Store, db': Store, t: string, x: Id, id: Id)
    requires x != id && db'.At(Queue(t)) == [x] + db.At(Queue(t))
    ensures Behind(db, db', t, id)
  { assert id !in [x]; }

  lemma BehindThen(a: Store, b: Store, c: Store, t: string, id: Id)
    requires Behind(a, b, t, id) && Behind(b, c, t, id)
    ensures Behind(a, c, t, id)
  {
    var more :| id !in more && b.At(Queue(t)) == more + a.At(Queue(t));
    var yet :| id !in yet && c.At(Queue(t)) == yet + b.At(Queue(t));
    assert yet + (more + a.At(Queue(t))) == (yet + more) + a.At(Queue(t));
  }

  lemma UntrackingIsBehind(cfg: Config, db: Store, x: Id, worker: string, t: string)
    ensures Untracked(cfg, db, x, worker).At(Queue(t)) == db.At(Queue(t))
  {}

  lemma ReschedulingIsBehind(db: Store, x: Id, job: Job, now: int, delay: int, t: string, id: Id)
    requires x != id
    ensures Behind(db, Rescheduled(db, x, job, now, delay), t, id)
  {
    var db' := Rescheduled(db, x, job, now, delay);
    if db'.At(Queue(t)) == db.At(Queue(t)) { SameIsBehind(db, db', t, id); } else { OneIsBehind(db, db', t, x, id); }
  }

  lemma FailureIsBehind(cfg: Config, db: Store, x: Id, error: string, now: int, t: string, id: Id)
    requires x != id
    ensures Behind(db, Failure(cfg, db, x, error, now), t, id)
  {
    hide Untracked, Rescheduled, Delay, Behind;
    SameIsBehind(db, db, t, id);
    if x in db.blobs {
      var job := db.blobs[x].(retryCount := db.blobs[x].retryCount + 1, error := error);
      var db1 := Untracked(cfg, db, x, job.worker);
      UntrackingIsBehind(cfg, db, x, job.worker, t);
      SameIsBehind(db, db1, t, id);
      ReschedulingIsBehind(db1, x, job, now, Delay(cfg, job.retryCount), t, id);
      BehindThen(db, db1, Rescheduled(db1, x, job, now, Delay(cfg, job.retryCount)), t, id);
    }
  }

  lemma SettlingIsBehind(cfg: Config, db: Store, x: Id, v: Verdict, now: int, t: string, id: Id)
    requires x != id
    ensures Behind(db, Settled(cfg, db, x, v, now), t, id)
  {
    match v
    case Throws(error) => FailureIsBehind(cfg, db, x, error, now, t, id);
    case _ => SameIsBehind(db, Settled(cfg, db, x, v, now), t, id);
  }

  lemma RescueIsBehind(db: Store, w: string, x: Id, t: string, id: Id)
    requires x != id
    ensures Behind(db, RecoveredOne(db, w, x), t, id)
  {
    var db' := RecoveredOne(db, w, x);
    if db'.At(Queue(t)) == db.At(Queue(t)) { SameIsBehind(db, db', t, id); } else { OneIsBehind(db, db', t, x, id); }
  }

  lemma {:induction false} RecoveryIsBehind(db: Store, w: string, ids: seq<Id>, t: string, id: Id)
    requires id !in ids
    ensures Behind(db, RecoveredAll(db, w, ids), t, id)
    decreases |ids|
  {
    if ids == [] {
      SameIsBehind(db, db, t, id);
    } else {
      var mid := RecoveredAll(db, w, ids[..|ids| - 1]);
      RecoveryIsBehind(db, w, ids[..|ids| - 1], t, id);
      RescueIsBehind(mid, w, ids[|ids| - 1], t, id);
      BehindThen(db, mid, RecoveredAll(db, w, ids), t, id);
    }
  }

  lemma PromotionOfOneIsBehind(db: Store, x: Id, t: string, id: Id)
    requires x != id
    ensures Behind(db, PromotedOne(db, x), t, id)
  {
    var db' := PromotedOne(db, x);
    if db'.At(Queue(t)) == db.At(Queue(t)) { SameIsBehind(db, db', t, id); } else { OneIsBehind(db, db', t, x, id); }
  }

  lemma {:induction false} PromotionIsBehind(db: Store, ids: seq<Id>, t: string, id: Id)
    requires id !in ids
    ensures Behind(db, PromotedAll(db, ids), t, id)
    decreases |ids|
  {
    if ids == [] {
      SameIsBehind(db, db, t, id);
    } else {
      var mid := PromotedAll(db, ids[..|ids| - 1]);
      PromotionIsBehind(db, ids[..|ids| - 1], t, id);
      PromotionOfOneIsBehind(mid, ids[|ids| - 1], t, id);
      BehindThen(db, mid, PromotedAll(db, ids), t, id);
    }
  }

  lemma ReapingOfOneIsBehind(cfg: Config, db: Store, x: Id, now: int, t: string, id: Id)
    requires x != id
    ensures Behind(db, ReapedOne(cfg, db, x, now), t, id)
  {
    SameIsBehind(db, db.ZRemLease(x), t, id);
    SameIsBehind(db, db, t, id);
    FailureIsBehind(cfg, db.ZRemLease(x), x, "visibility timeout exceeded", now, t, id);
    BehindThen(db, db.ZRemLease(x), Failure(cfg, db.ZRemLease(x), x, "visibility timeout exceeded", now), t, id);
  }

  lemma {:induction false} ReapingIsBehind(cfg: Config, db: Store, ids: seq<Id>, now: int, t: string, id: Id)
    requires id !in ids
    ensures Behind(db, ReapedAll(cfg, db, ids, now), t, id)
    decreases |ids|
  {
    if ids == [] {
      SameIsBehind(db, db, t, id);
    } else {
      var mid := ReapedAll(cfg, db, ids[..|ids| - 1], now);
      ReapingIsBehind(cfg, db, ids[..|ids| - 1], now, t, id);
      ReapingOfOneIsBehind(cfg, mid, ids[|ids| - 1], now, t, id);
      BehindThen(db, mid, ReapedAll(cfg, db, ids, now), t, id);
    }
  }

  lemma RequeueIsBehind(db: Store, x: Id, t: string, id: Id)
    requires x != id || !Requeueable(db, x)
    ensures Behind(db, Requeued(db, x), t, id)
  {
    var db' := Requeued(db, x);
    if db'.At(Queue(t)) == db.At(Queue(t)) { SameIsBehind(db, db', t, id); } else { OneIsBehind(db, db', t, x, id); }
  }

  lemma SubmissionIsBehind(cfg: Config, db: Store, x: Id, u: string, m: int, t: string, id: Id)
    requires x != id
    ensures Behind(db, Submitted(cfg, db, x, u, m), t, id)
  {
    if u == t { OneIsBehind(db, Submitted(cfg, db, x, u, m), t, x, id); } else { SameIsBehind(db, Submitted(cfg, db, x, u, m), t, id); }
  }

  /** The steps that neither take from a queue nor put anything at its front. */
  predicate Quiet(e: Event) { !e.Pop? && !e.RecordFailed? && !e.Cancel? }

  lemma QuietStepIsBehind(cfg: Config, s: System, e: Event, t: string, id: Id)
    requires Loose(s, id) && Idle(s, id) && Enabled(cfg, s, e) && Quiet(e) && (e.Submit? ==> e.id != id)
    ensures Behind(s.db, Step(cfg, s, e).db, t, id)
  {
    hide Behind, Settled, RecoveredAll, PromotedAll, ReapedAll;
    match e
    case Submit(x, u, m) => SubmissionIsBehind(cfg, s.db, x, u, m, t, id);
    case Finish(w, v, now) => assert !Placement.About(s.HandOf(w), id); SettlingIsBehind(cfg, s.db, s.HandOf(w).id, v, now, t, id);
    case Requeue(x) => RequeueIsBehind(s.db, x, t, id);
    case Promote(ids, now) => PromotionIsBehind(s.db, ids, t, id);
    case Reap(ids, now) => ReapingIsBehind(cfg, s.db, ids, now, t, id);
    case Restart(w) => RecoveryIsBehind(s.db, w, s.db.At(InFlight(w)), t, id);
    case _ => SameIsBehind(s.db, Step(cfg, s, e).db, t, id);
  }

  /** The id is in no processing list. */
  ghost predicate Idle(s: System, id: Id) { forall w :: id !in s.db.At(InFlight(w)) }

  /** The job has not been popped since its submission, or has not been submitted: it is in no place
      but, once submitted, in queue t, unless it has been cancelled. */
  ghost predicate Fresh(s: System, id: Id, t: string) {
    && Loose(s, id) && Idle(s, id)
    && (forall u :: u != t ==> id !in s.db.At(Queue(u)))
    && (id !in s.issued ==> id !in s.db.blobs && id !in s.db.At(Queue(t)))
  }

  lemma FreshStays(s: System, s': System, id: Id, t: string)
    requires Fresh(s, id, t) && Unmoved(s, s', id) && (id in s.issued <==> id in s'.issued)
    ensures Fresh(s', id, t)
  {
    forall w ensures id !in s'.db.At(InFlight(w)) { assert id !in s.db.At(InFlight(w)); }
    forall u | u != t ensures id !in s'.db.At(Queue(u)) { assert id !in s.db.At(Queue(u)); }
  }

  lemma FreshLoosened(s: System, s': System, id: Id, t: string)
    requires Fresh(s, id, t) && Loosened(s, s', id) && (id !in s.issued ==> id !in s'.db.blobs)
    ensures Fresh(s', id, t)
  {
    forall w ensures id !in s'.db.At(InFlight(w)) { assert id !in s.db.At(InFlight(w)); }
    forall u | u != t ensures id !in s'.db.At(Queue(u)) { assert id !in s.db.At(Queue(u)); }
  }

  lemma SubmittedIsFresh(cfg: Config, s: System, id: Id, t: string, m: int)
    requires Fresh(s, id, t) && id !in s.issued
    ensures Fresh(Step(cfg, s, Submit(id, t, m)), id, t)
  {
    var s' := Step(cfg, s, Submit(id, t, m));
    assert forall v :: s'.HandOf(v) == s.HandOf(v);
    forall w ensures id !in s'.db.At(InFlight(w)) { assert id !in s.db.At(InFlight(w)); }
    forall u | u != t ensures id !in s'.db.At(Queue(u)) { assert id !in s.db.At(Queue(u)); }
  }

  lemma OnlySubmitIssues(cfg: Config, s: System, e: Event, id: Id)
    requires Enabled(cfg, s, e)
    ensures id in Step(cfg, s, e).issued <==> id in s.issued || (e.Submit? && e.id == id)
  {}

  lemma FreshStep(cfg: Config, s: System, e: Event, id: Id, t: string)
    requires Fresh(s, id, t) && Enabled(cfg, s, e) && Taken(s, e) != Some(id)
    requires e.Submit? && e.id == id ==> e.jtype == t
    ensures Fresh(Step(cfg, s, e), id, t)
  {
    if e.Submit? && e.id == id {
      SubmittedIsFresh(cfg, s, id, t, e.maxRetries);
    } else if e.Cancel? && e.id == id {
      CancelLoosens(cfg, s, id);
      FreshLoosened(s, Step(cfg, s, e), id, t);
    } else if e.Expire? && e.id == id {
      ExpiryLoosens(cfg, s, id);
      FreshLoosened(s, Step(cfg, s, e), id, t);
    } else {
      LooseStep(cfg, s, e, id);
      OnlySubmitIssues(cfg, s, e, id);
      FreshStays(s, Step(cfg, s, e), id, t);
    }
  }

  /** The id leaves its queue: a thread takes it, or an admin cancels it. */
  predicate Leaves(s: System, e: Event, id: Id) {
    Taken(s, e) == Some(id) || (e.Cancel? && e.id == id && Cancellable(s.db, id))
  }

  /** a waits in queue t, and b behind it or not yet. */
  ghost predicate Ahead(s: System, t: string, a: Id, b: Id) {
    && a != b && Fresh(s, a, t) && a in s.db.At(Queue(t))
    && Fresh(s, b, t) && Precedes(s.db.At(Queue(t)), a, b)
  }

  lemma LaterIsNotTaken(s: System, e: Event, t: string, a: Id, b: Id)
    requires Ahead(s, t, a, b)
    ensures Taken(s, e) != Some(b)
  {
    var l := s.db.At(Queue(t));
    var i :| 0 <= i < |l| && l[i] == a;
    assert l[|l| - 1] != b;
    if e.Pop? {
      var u := FirstNonEmpty(s.db, e.types);
      if u.Some? && u.value != t { assert s.db.Tail(Queue(u.value)) in s.db.At(Queue(u.value)); }
    }
  }

  lemma PopCuts(cfg: Config, s: System, w: string, types: seq<string>, t: string)
    ensures var l, l' := s.db.At(Queue(t)), Step(cfg, s, Pop(w, types)).db.At(Queue(t));
      l' == l || (l != [] && Taken(s, Pop(w, types)) == Some(l[|l| - 1]) && l' == l[..|l| - 1])
  {}

  lemma ReturnAppends(cfg: Config, s: System, w: string, returned: bool, t: string)
    requires s.HandOf(w).Bare?
    ensures var l, l' := s.db.At(Queue(t)), Step(cfg, s, RecordFailed(w, returned)).db.At(Queue(t));
      l' == l || l' == l + [s.HandOf(w).id]
  {}

  lemma CancelRemoves(cfg: Config, s: System, x: Id, t: string)
    ensures var l, l' := s.db.At(Queue(t)), Step(cfg, s, Cancel(x)).db.At(Queue(t));
      l' == l || (Cancellable(s.db, x) && l' == Without(l, x))
  {
    if Cancellable(s.db, x) { CancelledQueue(cfg, s.db, x, t); }
    hide Cancelled;
  }

  lemma CancelledQueue(cfg: Config, db: Store, x: Id, t: string)
    requires Cancellable(db, x)
    ensures Cancelled(cfg, db, x).At(Queue(t)) == if db.blobs[x].jtype == t then Without(db.At(Queue(t)), x) else db.At(Queue(t))
  {}

  lemma NotInHand(s: System, w: string, id: Id, t: string)
    requires Fresh(s, id, t)
    ensures !Placement.About(s.HandOf(w), id)
  {}

  lemma StaysInFront(l: seq<Id>, l': seq<Id>, a: Id, b: Id, x: Id)
    requires a != b && a in l && Precedes(l, a, b)
    requires || (l != [] && l[|l| - 1] != a && l' == l[..|l| - 1])
             || (x != a && x != b && l' == l + [x])
             || (x != a && l' == Without(l, x))
    ensures a in l' && Precedes(l', a, b)
  {
    if l' == Without(l, x) {
      RemovalKeepsOrder(l, x, a, b);
    } else {
      var i :| 0 <= i < |l| && l[i] == a;
      assert l'[i] == a;
    }
  }

  lemma QuietKeepsOrder(cfg: Config, s: System, e: Event, t: string, a: Id, b: Id)
    requires Ahead(s, t, a, b) && Enabled(cfg, s, e) && Quiet(e) && (e.Submit? ==> e.id != a)
    ensures var l' := Step(cfg, s, e).db.At(Queue(t)); a in l' && Precedes(l', a, b)
  {
    hide Step, Enabled, Precedes, Loose, Idle;
    QuietStepIsBehind(cfg, s, e, t, a);
    var more :| a !in more && Step(cfg, s, e).db.At(Queue(t)) == more + s.db.At(Queue(t));
    PushedBehind(more, s.db.At(Queue(t)), a, b);
  }

  lemma UnquietKeepsOrder(cfg: Config, s: System, e: Event, t: string, a: Id, b: Id)
    requires Ahead(s, t, a, b) && Enabled(cfg, s, e) && !Quiet(e) && !Leaves(s, e, a)
    ensures var l' := Step(cfg, s, e).db.At(Queue(t)); a in l' && Precedes(l', a, b)
  {
    hide Step, Precedes, Fresh;
    var l, l' := s.db.At(Queue(t)), Step(cfg, s, e).db.At(Queue(t));
    match e
    case Pop(w, types) =>
      PopCuts(cfg, s, w, types, t);
      if l' != l { StaysInFront(l, l', a, b, a); }
    case RecordFailed(w, returned) =>
      ReturnAppends(cfg, s, w, returned, t);
      NotInHand(s, w, a, t);
      NotInHand(s, w, b, t);
      if l' != l { StaysInFront(l, l', a, b, s.HandOf(w).id); }
    case Cancel(x) =>
      CancelRemoves(cfg, s, x, t);
      if l' != l { StaysInFront(l, l', a, b, x); }
  }

  lemma OrderStays(cfg: Config, s: System, e: Event, t: string, a: Id, b: Id)
    requires Ahead(s, t, a, b) && Enabled(cfg, s, e) && !Leaves(s, e, a)
    ensures var l' := Step(cfg, s, e).db.At(Queue(t)); a in l' && Precedes(l', a, b)
  {
    if Quiet(e) {
      assert e.Submit? ==> e.id != a;
      hide Step, Precedes, Fresh;
      QuietKeepsOrder(cfg, s, e, t, a, b);
    } else {
      hide Step, Precedes, Fresh;
      UnquietKeepsOrder(cfg, s, e, t, a, b);
    }
  }

  /** Whatever happens, leases on or off, the later one is not taken while the earlier one waits. */
  lemma StaysAhead(cfg: Config, s: System, e: Event, t: string, a: Id, b: Id)
    requires Ahead(s, t, a, b) && Enabled(cfg, s, e) && !Leaves(s, e, a) && (e.Submit? && e.id == b ==> e.jtype == t)
    ensures Ahead(Step(cfg, s, e), t, a, b) && Taken(s, e) != Some(b)
  {
    LaterIsNotTaken(s, e, t, a, b);
    OrderStays(cfg, s, e, t, a, b);
    hide Precedes;
    assert e.Submit? ==> e.id != a;
    FreshStep(cfg, s, e, a, t);
    FreshStep(cfg, s, e, b, t);
  }

  lemma {:induction false} PrefixProceeds(cfg: Config, es: seq<Event>, n: nat)
    requires Proceeds(cfg, START, es) && n <= |es|
    ensures Proceeds(cfg, START, es[..n])
    decreases |es|
  {
    if n == |es| {
      assert es[..n] == es;
    } else {
      PrefixProceeds(cfg, es[..|es| - 1], n);
      assert es[..|es| - 1][..n] == es[..n];
    }
  }

  lemma {:induction false} BeforeItsSubmission(cfg: Config, es: seq<Event>, id: Id, t: string)
    requires Proceeds(cfg, START, es) && forall n :: 0 <= n < |es| ==> !(es[n].Submit? && es[n].id == id)
    ensures Fresh(Run(cfg, START, es), id, t) && id !in Run(cfg, START, es).issued
    decreases |es|
  {
    if es != [] {
      var front, e := es[..|es| - 1], es[|es| - 1];
      var s := Run(cfg, START, front);
      BeforeItsSubmission(cfg, front, id, t);
      NotTaken(s, e, id, t);
      OnlySubmitIssues(cfg, s, e, id);
      FreshStep(cfg, s, e, id, t);
    }
  }

  lemma NotTaken(s: System, e: Event, id: Id, t: string)
    requires Fresh(s, id, t) && id !in s.issued
    ensures Taken(s, e) != Some(id)
  {
    if e.Pop? {
      var u := FirstNonEmpty(s.db, e.types);
      if u.Some? { assert s.db.Tail(Queue(u.value)) in s.db.At(Queue(u.value)); }
    }
  }

  lemma {:induction false} IssuedFrom(cfg: Config, es: seq<Event>, n: nat)
    requires Proceeds(cfg, START, es) && n < |es| && es[n].Submit?
    ensures es[n].id in Run(cfg, START, es).issued
    decreases |es|
  {
    var front, e := es[..|es| - 1], es[|es| - 1];
    if n < |front| { IssuedFrom(cfg, front, n); }
    OnlySubmitIssues(cfg, Run(cfg, START, front), e, es[n].id);
  }

  lemma SubmittedOnce(cfg: Config, es: seq<Event>, n: nat, m: nat)
    requires Proceeds(cfg, START, es) && n < |es| && m < |es| && es[n].Submit? && es[m].Submit? && es[n].id == es[m].id
    ensures n == m
  {
    hide Run, Proceeds, Step;
    var i, j := if n < m then n else m, if n < m then m else n;
    if i < j {
      ItsStep(cfg, es, j);
      IssuedFrom(cfg, es[..j], i);
    }
  }

  lemma {:induction false} ItsStep(cfg: Config, es: seq<Event>, n: nat)
    requires Proceeds(cfg, START, es) && n < |es|
    ensures Proceeds(cfg, START, es[..n]) && Enabled(cfg, Run(cfg, START, es[..n]), es[n])
    decreases |es|
  {
    hide Run, Enabled;
    if n < |es| - 1 {
      ItsStep(cfg, es[..|es| - 1], n);
      assert es[..|es| - 1][..n] == es[..n];
    }
  }

  lemma JustSubmitted(cfg: Config, s: System, a: Id, t: string, m: int, b: Id)
    requires Fresh(s, a, t) && a !in s.issued && Fresh(s, b, t) && b !in s.issued && a != b
    ensures Ahead(Step(cfg, s, Submit(a, t, m)), t, a, b)
  {
    var e := Submit(a, t, m);
    NotTaken(s, e, a, t);
    NotTaken(s, e, b, t);
    FreshStep(cfg, s, e, a, t);
    FreshStep(cfg, s, e, b, t);
    assert Step(cfg, s, e).db.At(Queue(t)) == [a] + s.db.At(Queue(t));
  }

  /** From its submission on, until it leaves, a waits in front of whatever is submitted to its queue
      later. */
  lemma {:induction false} UntilItLeaves(cfg: Config, es: seq<Event>, i: nat, b: Id)
    requires Proceeds(cfg, START, es) && i < |es| && es[i].Submit? && es[i].id != b
    requires forall n :: 0 <= n < |es| && es[n].Submit? && es[n].id == b ==> n > i && es[n].jtype == es[i].jtype
    requires forall n :: i < n < |es| ==> !Leaves(Run(cfg, START, es[..n]), es[n], es[i].id)
    ensures Ahead(Run(cfg, START, es), es[i].jtype, es[i].id, b)
    decreases |es|
  {
    var front, e := es[..|es| - 1], es[|es| - 1];
    var s := Run(cfg, START, front);
    if i == |front| {
      forall n | 0 <= n < |front| ensures !(front[n].Submit? && front[n].id == e.id) {
        if es[n].Submit? && es[n].id == e.id { SubmittedOnce(cfg, es, n, i); }
      }
      BeforeItsSubmission(cfg, front, e.id, e.jtype);
      BeforeItsSubmission(cfg, front, b, e.jtype);
      JustSubmitted(cfg, s, e.id, e.jtype, e.maxRetries, b);
    } else {
      forall n | i < n < |front| ensures !Leaves(Run(cfg, START, front[..n]), front[n], es[i].id) {
        assert front[..n] == es[..n];
      }
      UntilItLeaves(cfg, front, i, b);
      StaysAhead(cfg, s, e, es[i].jtype, es[i].id, b);
    }
  }

  /** First in, first out, in every run from the empty queue, leases on or off: when any thread pops the
      later of two jobs of a type, the earlier one has already been popped or cancelled. */
  lemma EarlierIsTakenFirst(cfg: Config, es: seq<Event>, i: nat, j: nat, k: nat)
    requires Proceeds(cfg, START, es) && i < j < k < |es|
    requires es[i].Submit? && es[j].Submit? && es[i].jtype == es[j].jtype
    requires Taken(Run(cfg, START, es[..k]), es[k]) == Some(es[j].id)
    ensures exists n :: i < n < k && Leaves(Run(cfg, START, es[..n]), es[n], es[i].id)
  {
    hide Run, Proceeds, Step, Leaves, Taken;
    var a, b, front := es[i].id, es[j].id, es[..k];
    PrefixProceeds(cfg, es, k);
    if forall n :: i < n < k ==> !Leaves(Run(cfg, START, es[..n]), es[n], a) {
      forall n | 0 <= n < k && front[n].Submit? && front[n].id == b ensures n > i && front[n].jtype == front[i].jtype {
        SubmittedOnce(cfg, front, n, j);
      }
      if a == b { SubmittedOnce(cfg, front, i, j); }
      forall n | i < n < |front| ensures !Leaves(Run(cfg, START, front[..n]), front[n], a) { assert front[..n] == es[..n]; }
      UntilItLeaves(cfg, front, i, b);
      LaterIsNotTaken(Run(cfg, START, front), es[k], es[i].jtype, a, b);
    }
  }

  // ---- Nobody jumps the queue ----------------------------------------------------------------

  /** How many pops of the list take another id before one takes a. */
  function InFront(l: seq<Id>, a: Id): nat
    decreases |l|
  { if l == [] || l[|l| - 1] == a then 0 else 1 + InFront(l[..|l| - 1], a) }

  lemma {:induction false} PushingPutsNobodyInFront(more: seq<Id>, l: seq<Id>, a: Id)
    requires a in l
    ensures InFront(more + l, a) == InFront(l, a)
    decreases |l|
  {
    var n := |l| - 1;
    if l[n] != a {
      assert (more + l)[..|more + l| - 1] == more + l[..n];
      assert l == l[..n] + [l[n]];
      PushingPutsNobodyInFront(more, l[..n], a);
    }
  }

  lemma {:induction false} RemovalPutsNobodyInFront(l: seq<Id>, x: Id, a: Id)
    requires a != x
    ensures InFront(Without(l, x), a) <= InFront(l, a)
    decreases |l|
  {
    if l != [] && l[|l| - 1] != a {
      var front, last := l[..|l| - 1], l[|l| - 1];
      RemovalPutsNobodyInFront(front, x, a);
      if last != x { assert (Without(front, x) + [last])[..|Without(front, x)|] == Without(front, x); }
    }
  }

  /** The step takes an id from queue t; or gives one back to its front. */
  predicate TakesFrom(s: System, e: Event, t: string) { e.Pop? && FirstNonEmpty(s.db, e.types) == Some(t) }

  predicate GivesBack(s: System, e: Event, t: string) {
    e.RecordFailed? && e.returned && s.HandOf(e.worker).Bare? && s.HandOf(e.worker).jtype == t
  }

  lemma ReturnEffect(cfg: Config, s: System, w: string, returned: bool, t: string)
    requires s.HandOf(w).Bare?
    ensures Step(cfg, s, RecordFailed(w, returned)).db.At(Queue(t))
         == s.db.At(Queue(t)) + if GivesBack(s, RecordFailed(w, returned), t) then [s.HandOf(w).id] else []
  {}

  lemma PopEffect(cfg: Config, s: System, w: string, types: seq<string>, t: string)
    ensures var l, l' := s.db.At(Queue(t)), Step(cfg, s, Pop(w, types)).db.At(Queue(t));
      if TakesFrom(s, Pop(w, types), t) then l != [] && Taken(s, Pop(w, types)) == Some(l[|l| - 1]) && l' == l[..|l| - 1] else l' == l
  {}

  /** In front of a waiting job there come to be no more, but for those given back, and one less with
      each pop. */
  lemma StepPutsNobodyInFront(cfg: Config, s: System, e: Event, t: string, a: Id)
    requires Fresh(s, a, t) && a in s.db.At(Queue(t)) && Enabled(cfg, s, e) && !Leaves(s, e, a) && (e.Submit? ==> e.id != a)
    ensures var l, l' := s.db.At(Queue(t)), Step(cfg, s, e).db.At(Queue(t));
      && a in l'
      && InFront(l', a) + (if TakesFrom(s, e, t) then 1 else 0) <= InFront(l, a) + if GivesBack(s, e, t) then 1 else 0
  {
    hide Step, Enabled, Fresh, InFront;
    var l, l' := s.db.At(Queue(t)), Step(cfg, s, e).db.At(Queue(t));
    match e
    case Pop(w, types) =>
      PopEffect(cfg, s, w, types, t);
      if TakesFrom(s, e, t) { PopLetsForward(l, a); }
    case RecordFailed(w, returned) => ReturnsOne(cfg, s, w, returned, t, a);
    case Cancel(x) =>
      CancelRemoves(cfg, s, x, t);
      if l' != l { RemovalPutsNobodyInFront(l, x, a); }
    case _ => QuietPutsNobodyInFront(cfg, s, e, t, a);
  }

  lemma PopLetsForward(l: seq<Id>, a: Id)
    requires a in l && l[|l| - 1] != a
    ensures a in l[..|l| - 1] && InFront(l[..|l| - 1], a) == InFront(l, a) - 1
  { assert l == l[..|l| - 1] + [l[|l| - 1]]; }

  lemma ReturnsOne(cfg: Config, s: System, w: string, returned: bool, t: string, a: Id)
    requires a in s.db.At(Queue(t)) && Enabled(cfg, s, RecordFailed(w, returned))
    ensures var l, l', e := s.db.At(Queue(t)), Step(cfg, s, RecordFailed(w, returned)).db.At(Queue(t)), RecordFailed(w, returned);
      a in l' && InFront(l', a) <= InFront(l, a) + if GivesBack(s, e, t) then 1 else 0
  {
    var l := s.db.At(Queue(t));
    ReturnEffect(cfg, s, w, returned, t);
    hide Step;
    if GivesBack(s, RecordFailed(w, returned), t) {
      assert (l + [s.HandOf(w).id])[..|l|] == l;
    } else {
      assert l + [] == l;
    }
  }

  lemma QuietPutsNobodyInFront(cfg: Config, s: System, e: Event, t: string, a: Id)
    requires Fresh(s, a, t) && a in s.db.At(Queue(t)) && Enabled(cfg, s, e) && Quiet(e) && (e.Submit? ==> e.id != a)
    ensures var l' := Step(cfg, s, e).db.At(Queue(t)); a in l' && InFront(l', a) == InFront(s.db.At(Queue(t)), a)
  {
    QuietStepIsBehind(cfg, s, e, t, a);
    hide Step, Enabled, Fresh, InFront;
    var more :| a !in more && Step(cfg, s, e).db.At(Queue(t)) == more + s.db.At(Queue(t));
    PushingPutsNobodyInFront(more, s.db.At(Queue(t)), a);
  }

  /** How many steps of a run take an id from queue t, and how many give one back. */
  function PopsOf(cfg: Config, s: System, es: seq<Event>, t: string): nat
    decreases |es|
  {
    if es == [] then 0 else
      PopsOf(cfg, s, es[..|es| - 1], t) + if TakesFrom(Run(cfg, s, es[..|es| - 1]), es[|es| - 1], t) then 1 else 0
  }

  function ReturnsOf(cfg: Config, s: System, es: seq<Event>, t: string): nat
    decreases |es|
  {
    if es == [] then 0 else
      ReturnsOf(cfg, s, es[..|es| - 1], t) + if GivesBack(Run(cfg, s, es[..|es| - 1]), es[|es| - 1], t) then 1 else 0
  }

  ghost predicate Waits(cfg: Config, s: System, es: seq<Event>, id: Id)
    decreases |es|
  {
    es == [] || (Waits(cfg, s, es[..|es| - 1], id) && !Leaves(Run(cfg, s, es[..|es| - 1]), es[|es| - 1], id))
  }

  lemma {:induction false} WaitingGoesForward(cfg: Config, s: System, t: string, a: Id, es: seq<Event>)
    requires Fresh(s, a, t) && a in s.db.At(Queue(t)) && a in s.issued && Proceeds(cfg, s, es) && Waits(cfg, s, es, a)
    ensures var s' := Run(cfg, s, es);
      && Fresh(s', a, t) && a in s'.db.At(Queue(t)) && a in s'.issued
      && InFront(s'.db.At(Queue(t)), a) + PopsOf(cfg, s, es, t) <= InFront(s.db.At(Queue(t)), a) + ReturnsOf(cfg, s, es, t)
    decreases |es|
  {
    if es != [] {
      var front, e := es[..|es| - 1], es[|es| - 1];
      WaitingGoesForward(cfg, s, t, a, front);
      var mid := Run(cfg, s, front);
      assert e.Submit? ==> e.id != a;
      hide Step, Enabled, Fresh, InFront, TakesFrom, GivesBack;
      StepPutsNobodyInFront(cfg, mid, e, t, a);
      FreshStep(cfg, mid, e, a, t);
      OnlySubmitIssues(cfg, mid, e, a);
    }
  }

  lemma NotSubmittedBefore(cfg: Config, es: seq<Event>, id: Id)
    requires Proceeds(cfg, START, es) && id !in Run(cfg, START, es).issued
    ensures forall n :: 0 <= n < |es| ==> !(es[n].Submit? && es[n].id == id)
  {
    forall n | 0 <= n < |es| ensures !(es[n].Submit? && es[n].id == id) {
      if es[n].Submit? && es[n].id == id { IssuedFrom(cfg, es, n); }
    }
  }

  /** Nobody starves and nobody jumps the queue: in every run, leases on or off, while a submitted job waits
      its queue is popped at most once for each job that waited before it, and once more for each popped id
      that was given back. Retried, promoted, recovered and requeued jobs go behind it. */
  lemma WaitingIsBounded(cfg: Config, es: seq<Event>, id: Id, t: string, m: int, later: seq<Event>)
    requires Proceeds(cfg, START, es) && id !in Run(cfg, START, es).issued
    requires var s' := Step(cfg, Run(cfg, START, es), Submit(id, t, m)); Proceeds(cfg, s', later) && Waits(cfg, s', later, id)
    ensures var s := Run(cfg, START, es);
      var s' := Step(cfg, s, Submit(id, t, m));
      PopsOf(cfg, s', later, t) <= |s.db.At(Queue(t))| + ReturnsOf(cfg, s', later, t)
  {
    var s := Run(cfg, START, es);
    var s', l := Step(cfg, s, Submit(id, t, m)), s.db.At(Queue(t));
    NotSubmittedBefore(cfg, es, id);
    BeforeItsSubmission(cfg, es, id, t);
    SubmittedIsFresh(cfg, s, id, t, m);
    assert s'.db.At(Queue(t)) == [id] + l && id in s'.issued;
    hide Step, Fresh, Run, Waits, Proceeds;
    WaitingGoesForward(cfg, s', t, id, later);
    FirstInList(id, l);
  }

  lemma FirstInList(id: Id, l: seq<Id>)
    ensures InFront([id] + l, id) <= |l|
    decreases |l|
  {
    if l == [] {
    } else if l[|l| - 1] != id {
      assert ([id] + l)[..|l|] == [id] + l[..|l| - 1];
      FirstInList(id, l[..|l| - 1]);
    }
  }

  // ---- Batches and returns -------------------------------------------------------------------

  /** A pick takes from the first of its types, in their order, that has any job waiting; from none exactly
      if all are empty. */
  lemma {:induction false} TheFirstTypeIsTaken(db: Store, types: seq<string>, t: string)
    ensures FirstNonEmpty(db, types) == Some(t) <==>
      exists i :: 0 <= i < |types| && types[i] == t && db.At(Queue(t)) != [] && forall j :: 0 <= j < i ==> db.At(Queue(types[j])) == []
    ensures FirstNonEmpty(db, types) == None <==> forall j :: 0 <= j < |types| ==> db.At(Queue(types[j])) == []
  {
    if types != [] && db.At(Queue(types[0])) == [] {
      var rest := types[1..];
      TheFirstTypeIsTaken(db, rest, t);
      forall i | 0 <= i < |rest| ensures rest[i] == types[i + 1] {}
      if FirstNonEmpty(db, rest) == Some(t) {
        var i :| 0 <= i < |rest| && rest[i] == t && db.At(Queue(t)) != [] && forall j :: 0 <= j < i ==> db.At(Queue(rest[j])) == [];
        forall j | 0 <= j < i + 1 ensures db.At(Queue(types[j])) == [] { if j > 0 { assert rest[j - 1] == types[j]; } }
        assert types[i + 1] == t;
      }
      if i :| 0 <= i < |types| && types[i] == t && db.At(Queue(t)) != [] && forall j :: 0 <= j < i ==> db.At(Queue(types[j])) == [] {
        forall j | 0 <= j < i - 1 ensures db.At(Queue(rest[j])) == [] { assert rest[j] == types[j + 1]; }
        assert rest[i - 1] == t;
      }
      if FirstNonEmpty(db, rest) == None {
        forall j | 0 <= j < |types| ensures db.At(Queue(types[j])) == [] { if j > 0 { assert rest[j - 1] == types[j]; } }
      }
    }
  }

  /** A pop takes the one that has waited longest, of the first type that has any. */
  lemma PopTakesTheFirst(s: System, w: string, t: string, single: bool, u: string)
    requires s.db.At(Queue(t)) != []
    ensures var s' := Popped(s, w, t, single);
      && s'.HandOf(w) == (if single then Recorded(Waiting(s.db, t)[0]) else Bare(Waiting(s.db, t)[0], t))
      && Waiting(s'.db, t) == Waiting(s.db, t)[1..]
      && (u != t ==> Waiting(s'.db, u) == Waiting(s.db, u))
  {}

  /** A job that could not be recorded goes back to where it was, before all others. */
  lemma ReturnedGoesFirst(cfg: Config, s: System, w: string)
    requires s.HandOf(w).Bare?
    ensures var h := s.HandOf(w); Waiting(Step(cfg, s, RecordFailed(w, true)).db, h.jtype) == [h.id] + Waiting(s.db, h.jtype)
  {}

  /** A pop whose id is returned leaves the queue in the order it had. */
  lemma AReturnUndoesThePop(cfg: Config, s: System, w: string, types: seq<string>, t: string)
    requires FirstNonEmpty(s.db, types) == Some(t) && |types| != 1
    ensures Waiting(Step(cfg, Step(cfg, s, Pop(w, types)), RecordFailed(w, true)).db, t) == Waiting(s.db, t)
  {
    PopTakesTheFirst(s, w, t, false, t);
    ReturnedGoesFirst(cfg, Popped(s, w, t, false), w);
    assert Step(cfg, s, Pop(w, types)) == Popped(s, w, t, false);
    hide Step, Popped, Waiting;
    BackInFront(Waiting(s.db, t));
  }

  lemma BackInFront(l: seq<Id>)
    requires l != []
    ensures [l[0]] + l[1..] == l
  {}

  /** Each of these threads pops once. */
  function Pops(ws: seq<string>, t: string): seq<Event> { seq(|ws|, i requires 0 <= i < |ws| => Pop(ws[i], [t])) }

  /** Threads that pop one after the other get the waiting jobs in their order. */
  lemma {:induction false} PopsComeInOrder(cfg: Config, s: System, ws: seq<string>, t: string)
    requires NoDup(ws) && |ws| <= |Waiting(s.db, t)|
    ensures var s' := Run(cfg, s, Pops(ws, t));
      && Waiting(s'.db, t) == Waiting(s.db, t)[|ws|..]
      && forall i :: 0 <= i < |ws| ==> s'.HandOf(ws[i]) == Recorded(Waiting(s.db, t)[i])
    decreases |ws|
  {
    hide Step, Run, Pops, Waiting;
    NoPops(cfg, s, t);
    if ws == [] {
      assert Waiting(s.db, t)[0..] == Waiting(s.db, t);
    } else {
      var front, w := ws[..|ws| - 1], ws[|ws| - 1];
      var mid := Run(cfg, s, Pops(front, t));
      PopsComeInOrder(cfg, s, front, t);
      LastPop(cfg, s, ws, t);
      Skipped(Waiting(s.db, t), |front|);
      OnePop(cfg, mid, w, t);
      assert forall i :: 0 <= i < |front| ==> front[i] == ws[i] && ws[i] != w;
    }
  }

  lemma NoPops(cfg: Config, s: System, t: string)
    ensures Run(cfg, s, Pops([], t)) == s
  { assert Pops([], t) == []; }

  lemma LastPop(cfg: Config, s: System, ws: seq<string>, t: string)
    requires ws != []
    ensures Run(cfg, s, Pops(ws, t)) == Step(cfg, Run(cfg, s, Pops(ws[..|ws| - 1], t)), Pop(ws[|ws| - 1], [t]))
  {
    hide Step;
    assert Pops(ws, t)[..|ws| - 1] == Pops(ws[..|ws| - 1], t);
  }

  lemma OnePop(cfg: Config, s: System, w: string, t: string)
    requires Waiting(s.db, t) != []
    ensures var s' := Step(cfg, s, Pop(w, [t]));
      && s'.HandOf(w) == Recorded(Waiting(s.db, t)[0]) && Waiting(s'.db, t) == Waiting(s.db, t)[1..]
      && forall v :: v != w ==> s'.HandOf(v) == s.HandOf(v)
  {
    assert FirstNonEmpty(s.db, [t]) == Some(t);
    PopTakesTheFirst(s, w, t, true, t);
    hide Waiting;
  }

  lemma Skipped(l: seq<Id>, n: nat)
    requires n < |l|
    ensures l[n..] != [] && l[n..][0] == l[n] && l[n..][1..] == l[n + 1..]
  {}

  /** A batch submitted to an empty queue is handed to the threads that pop it in the order of its
      submission. */
  lemma ABatchComesInOrder(cfg: Config, s: System, ids: seq<Id>, t: string, m: int, ws: seq<string>)
    requires Waiting(s.db, t) == [] && NoDup(ws) && |ws| == |ids|
    ensures var s' := Run(cfg, s.With(SubmittedAll(cfg, s.db, ids, t, m)), Pops(ws, t));
      Waiting(s'.db, t) == [] && forall i :: 0 <= i < |ids| ==> s'.HandOf(ws[i]) == Recorded(ids[i])
  {
    SubmissionsKeepTheirOrder(cfg, s.db, ids, t, m, t);
    assert [] + ids == ids;
    PopsComeInOrder(cfg, s.With(SubmittedAll(cfg, s.db, ids, t, m)), ws, t);
  }

  // ---- What the sweeps put back --------------------------------------------------------------

  lemma RescueGoesLast(db: Store, w: string, id: Id, t: string)
    requires Cancellable(db, id) && Owns(db.blobs[id], w) && db.blobs[id].jtype == t
    ensures Waiting(RecoveredOne(db, w, id), t) == Waiting(db, t) + [id]
  { assert RecoveredOne(db, w, id).At(Queue(t)) == [id] + db.At(Queue(t)); }

  lemma PromotedGoesLast(db: Store, id: Id, t: string)
    requires id in db.delayed && Cancellable(db, id) && db.blobs[id].jtype == t
    ensures Waiting(PromotedOne(db, id), t) == Waiting(db, t) + [id]
  { assert PromotedOne(db, id).At(Queue(t)) == [id] + db.At(Queue(t)); }

  lemma AppendOne(a: seq<Id>, ids: seq<Id>)
    requires ids != []
    ensures a + ids[..|ids| - 1] + [ids[|ids| - 1]] == a + ids
  {}

  /** A live job of this type that names this worker or nobody. */
  predicate Comes(db: Store, w: string, t: string, id: Id) {
    Cancellable(db, id) && (db.blobs[id].worker == "" || db.blobs[id].worker == w) && db.blobs[id].jtype == t
  }

  lemma ComesStill(db: Store, db': Store, w: string, t: string, id: Id)
    requires Comes(db, w, t, id) && Whereabouts.AsKnown(db, db', w, id)
    ensures Cancellable(db', id) && Owns(db'.blobs[id], w) && db'.blobs[id].jtype == t
  {}

  /** Recovered jobs of a type wait behind the others, in the order of the list they were in. */
  lemma {:induction false} RecoveredWaitInOrder(db: Store, w: string, ids: seq<Id>, t: string)
    requires NoDup(ids) && forall id :: id in ids ==> Comes(db, w, t, id)
    ensures Waiting(RecoveredAll(db, w, ids), t) == Waiting(db, t) + ids
    decreases |ids|
  {
    if ids == [] {
      assert Waiting(db, t) + [] == Waiting(db, t);
    } else {
      var front, last := ids[..|ids| - 1], ids[|ids| - 1];
      var mid := RecoveredAll(db, w, front);
      RecoveredWaitInOrder(db, w, front, t);
      assert RecoveredAll(db, w, ids) == RecoveredOne(mid, w, last);
      hide Waiting, RecoveredOne, RecoveredAll, Comes, Cancellable, Whereabouts.AsKnown;
      Whereabouts.RecoveryIsApart(db, w, front, last);
      ComesStill(db, mid, w, t, last);
      RescueGoesLast(mid, w, last, t);
      AppendOne(Waiting(db, t), ids);
    }
  }

  lemma {:induction false} PromotionIsApart(db: Store, ids: seq<Id>, id: Id)
    requires id !in ids
    ensures id in PromotedAll(db, ids).delayed <==> id in db.delayed
    ensures PromotedAll(db, ids).blobs == db.blobs
    decreases |ids|
  { if ids != [] { PromotionIsApart(db, ids[..|ids| - 1], id); } }

  /** Promoted jobs of a type wait behind the others, in the order of the sweep. */
  lemma {:induction false} PromotedWaitInOrder(db: Store, ids: seq<Id>, t: string)
    requires NoDup(ids) && forall id :: id in ids ==> id in db.delayed && Cancellable(db, id) && db.blobs[id].jtype == t
    ensures Waiting(PromotedAll(db, ids), t) == Waiting(db, t) + ids
    decreases |ids|
  {
    if ids == [] {
      assert Waiting(db, t) + [] == Waiting(db, t);
    } else {
      var front, last := ids[..|ids| - 1], ids[|ids| - 1];
      var mid := PromotedAll(db, front);
      PromotedWaitInOrder(db, front, t);
      PromotionIsApart(db, front, last);
      PromotedGoesLast(mid, last, t);
      AppendOne(Waiting(db, t), ids);
      hide Waiting, PromotedOne;
    }
  }

  /** Popped in one command, an id is the first of the worker's list; recorded after a pop, the last. A job
      that dies is the first of its dead letters. */
  lemma EndsOfTheLists(cfg: Config, s: System, w: string, t: string, id: Id, error: string, now: int)
    ensures s.db.At(Queue(t)) != [] ==>
      Moved(s.db, t, w).At(InFlight(w)) == [Waiting(s.db, t)[0]] + s.db.At(InFlight(w))
    ensures s.HandOf(w).Bare? ==> Step(cfg, s, Record(w)).db.At(InFlight(w)) == s.db.At(InFlight(w)) + [s.HandOf(w).id]
    ensures id in s.db.blobs && s.db.blobs[id].jtype == t ==>
      DeadLettered(cfg, s.db, id, error).At(Dlq(t)) == [id] + s.db.At(Dlq(t))
    ensures Cancellable(s.db, id) && s.db.blobs[id].jtype == t && s.db.blobs[id].retryCount + 1 >= s.db.blobs[id].maxRetries ==>
      Failure(cfg, s.db, id, error, now).At(Dlq(t)) == [id] + s.db.At(Dlq(t))
  {}

  // ---- When a failed job is due --------------------------------------------------------------

  /** After its k-th failure, with attempts left and backoff on, a job is parked for
      min(base * 2^min(k - 1, 30), max) from now, and it is on no queue more than before. */
  lemma FailureParksForThePromisedDelay(cfg: Config, db: Store, id: Id, error: string, now: int, t: string)
    requires cfg.Backing() && cfg.backoffBase < 0x2_0000_0000
    requires Cancellable(db, id) && db.blobs[id].retryCount + 1 < db.blobs[id].maxRetries
    ensures var db', k := Failure(cfg, db, id, error, now), db.blobs[id].retryCount + 1;
      && id in db'.delayed && now < db'.delayed[id] == now + Min(cfg.backoffBase * Pow2(if k <= 1 then 0 else if k > 31 then 30 else k - 1), cfg.backoffMax)
      && Waiting(db', t) == Waiting(db, t)
      && db'.blobs[id].status.Pending? && db'.blobs[id].retryCount == k
  {
    var job := db.blobs[id];
    var k := job.retryCount + 1;
    DelayIsMonotone(cfg, k, k);
    DelayIsPromised(cfg, k);
    assert Untracked(cfg, db, id, job.worker).At(Queue(t)) == db.At(Queue(t));
  }
}
