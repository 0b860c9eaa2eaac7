/** No job is lost and no job is run twice. With leases off, in every state that the workers, the
    promoters, the admin, crashes and restarts can reach without a lost pop, each live job id is in
    exactly one place, and no two threads run the same job. */
module ExactlyOnce {
  import opened Wrappers
  import opened JobModel
  import opened Backoff
  import opened JobQueue
  import opened Workers
  import opened Placement
  import opened Whereabouts

  lemma LossBreaks(cfg: Config, s: System, e: Event)
    requires Inv(s) && Loses(s, e)
    ensures !Inv(Step(cfg, s, e))
  {
    hide Agrees;
    var s', id := Step(cfg, s, e), s.HandOf(e.worker).id;
    var where :| Agrees(s, where);
    Known(s, where, id);
    if Inv(s') {
      var where' :| Agrees(s', where');
      Known(s', where', id);
    }
  }

  /** The invariant survives a step exactly when the step is not one of the two losses. */
  lemma StepKeepsInv(cfg: Config, s: System, e: Event)
    requires cfg.visibilityMs <= 0 && Inv(s) && Enabled(cfg, s, e)
    ensures Inv(Step(cfg, s, e)) <==> !Loses(s, e)
  {
    if Loses(s, e) {
      LossBreaks(cfg, s, e);
    } else {
      var where :| Agrees(s, where);
      var where' := StepPlaces(cfg, s, where, e, "");
    }
  }

  ghost predicate Legal(cfg: Config, s: System, es: seq<Event>)
    decreases |es|
  {
    es == [] ||
    var front, e := es[..|es| - 1], es[|es| - 1];
    Legal(cfg, s, front) && Enabled(cfg, Run(cfg, s, front), e) && !Loses(Run(cfg, s, front), e)
  }

  lemma {:induction false} RunKeepsInv(cfg: Config, s: System, es: seq<Event>)
    requires cfg.visibilityMs <= 0 && Inv(s) && Legal(cfg, s, es)
    ensures Inv(Run(cfg, s, es))
    decreases |es|
  {
    if es != [] {
      RunKeepsInv(cfg, s, es[..|es| - 1]);
      StepKeepsInv(cfg, Run(cfg, s, es[..|es| - 1]), es[|es| - 1]);
    }
  }

  lemma StartIsInv()
    ensures Inv(START)
  {
    forall q: Place, x: Id | q != Nowhere ensures Holds(START, q, x) <==> W(map[], x) == q {}
    forall w ensures HandOk(START, map[], w) {}
    assert Agrees(START, map[]);
  }

  /** How many times a place holds an id. */
  function Count(s: System, p: Place, id: Id): nat {
    match p
    case In(k) => multiset(s.db.At(k))[id]
    case Parked => if id in s.db.delayed then 1 else 0
    case InHand(w) => if s.HandOf(w).Bare? && s.HandOf(w).id == id then 1 else 0
    case Nowhere => 0
  }

  lemma {:induction false} NoDupCounts(l: seq<Id>, id: Id)
    requires NoDup(l)
    ensures multiset(l)[id] == if id in l then 1 else 0
    decreases |l|
  {
    if l != [] {
      var n := |l| - 1;
      NoDupCounts(l[..n], id);
      assert l == l[..n] + [l[n]];
    }
  }

  lemma CountsAreHolds(s: System, where: Where, p: Place, id: Id)
    requires Agrees(s, where)
    ensures Count(s, p, id) == if p != Nowhere && p == W(where, id) then 1 else 0
  {
    assert p != Nowhere ==> (Holds(s, p, id) <==> W(where, id) == p);
    if p.In? && p.key in s.db.lists { NoDupCounts(s.db.lists[p.key], id); }
  }

  ghost predicate InExactlyOnePlace(s: System, id: Id) {
    exists p: Place :: Count(s, p, id) == 1 && !(p.In? && p.key.Dlq?) && forall q: Place :: q != p ==> Count(s, q, id) == 0
  }

  ghost predicate RunBy(s: System, w: string, id: Id) { s.HandOf(w) == Running(id) }

  /** After any legal run from the empty queue: a live job is in exactly one of its queue, the
      delayed set, a processing list and a picker's hand; a running job is run by one thread; a
      job is dead exactly when it is once in its dead-letter list, exactly when it is in the
      index set; a dead job never expires; and a live job has failures to spare. */
  lemma NothingLostNothingTwice(cfg: Config, es: seq<Event>)
    requires cfg.visibilityMs <= 0 && Legal(cfg, START, es)
    ensures var s := Run(cfg, START, es);
      && (forall id :: s.Live(id) ==> InExactlyOnePlace(s, id))
      && (forall v, w, id :: RunBy(s, v, id) && RunBy(s, w, id) ==> v == w)
      && (forall id :: id in s.db.blobs ==>
            var job := s.db.blobs[id];
            && (job.status.Dead? <==> Count(s, In(Dlq(job.jtype)), id) == 1)
            && (job.status.Dead? <==> id in s.db.dlqAll)
            && (job.status.Dead? ==> !job.expires)
            && (!job.status.Terminal() ==> job.retryCount == 0 || 0 < job.retryCount < job.maxRetries))
      && (forall id :: id in s.db.dlqAll ==> id in s.db.blobs)
  {
    var s := Run(cfg, START, es);
    StartIsInv();
    RunKeepsInv(cfg, START, es);
    var where :| Agrees(s, where);
    forall id | s.Live(id) ensures InExactlyOnePlace(s, id) {
      var p := W(where, id);
      Known(s, where, id);
      forall q ensures Count(s, q, id) == if q != Nowhere && q == p then 1 else 0 { CountsAreHolds(s, where, q, id); }
    }
    forall id | id in s.db.blobs ensures s.db.blobs[id].status.Dead? <==> Count(s, In(Dlq(s.db.blobs[id].jtype)), id) == 1 {
      Known(s, where, id);
      CountsAreHolds(s, where, In(Dlq(s.db.blobs[id].jtype)), id);
    }
  }

  /** Recovery rescues a live job of its list exactly when the blob names this worker or nobody. A
      job popped after another worker failed it still names that other worker, and stays stranded. */
  lemma RecoveryRescuesItsOwn(cfg: Config, s: System, w: string, id: Id)
    requires Inv(s) && Enabled(cfg, s, Restart(w)) && s.Live(id) && id in s.db.At(InFlight(w))
    ensures var db := Step(cfg, s, Restart(w)).db;
      && (id in db.At(Queue(s.db.blobs[id].jtype)) <==> Owns(s.db.blobs[id], w))
      && (id in db.At(InFlight(w)) <==> !Owns(s.db.blobs[id], w))
  {
    var where :| Agrees(s, where);
    var where' := RecoverAllMoves(s, where, w, s.db.At(InFlight(w)));
    Known(s.With(Recovered(s.db, w)), where', id);
  }

  lemma Extend(cfg: Config, s0: System, es: seq<Event>, e: Event)
    requires Legal(cfg, s0, es)
    requires var s := Run(cfg, s0, es); Enabled(cfg, s, e) && !Loses(s, e)
    ensures Legal(cfg, s0, es + [e]) && Run(cfg, s0, es + [e]) == Step(cfg, Run(cfg, s0, es), e)
  {
    assert (es + [e])[..|es + [e]| - 1] == es;
  }

  /** Nothing but p holds the id. */
  ghost predicate OnlyHeldBy(s: System, p: Place, id: Id) {
    forall q: Place :: q != Nowhere ==> (Holds(s, q, id) <==> q == p)
  }

  lemma HeldWhereItIs(s: System, where: Where, p: Place, id: Id)
    requires Agrees(s, where)
    ensures OnlyHeldBy(s, p, id) <==> p == W(where, id)
  {
    assert p != Nowhere ==> (Holds(s, p, id) <==> p == W(where, id));
    assert W(where, id) != Nowhere ==> Holds(s, W(where, id), id);
  }

  /** After any legal run from the empty queue: from the one place that holds a job, every step takes it to
      the one place that the machine names. */
  lemma WhereAStepPutsAJob(cfg: Config, es: seq<Event>, e: Event, id: Id, p: Place)
    requires cfg.visibilityMs <= 0 && Legal(cfg, START, es)
    requires var s := Run(cfg, START, es); Enabled(cfg, s, e) && !Loses(s, e) && OnlyHeldBy(s, p, id)
    ensures var s := Run(cfg, START, es); OnlyHeldBy(Step(cfg, s, e), NextPlace(cfg, s, e, id, p), id)
  {
    hide Agrees, Step, Run, Enabled, Loses, OnlyHeldBy, NextPlace, Legal;
    StartIsInv();
    RunKeepsInv(cfg, START, es);
    var s := Run(cfg, START, es);
    var where :| Agrees(s, where);
    HeldWhereItIs(s, where, p, id);
    var where' := StepPlaces(cfg, s, where, e, id);
    HeldWhereItIs(Step(cfg, s, e), where', NextPlace(cfg, s, e, id, p), id);
  }
}
