/** Reading a job's record and writing it back are two commands. The operations that write back a live
    record (the claim, fail, the reaper's fail, recovery and the trace id) are cut between them, and this
    is what a cancel in between comes to. */
module CancelRace {
  import opened Wrappers
  import opened JobModel
  import opened Backoff
  import opened JobQueue
  import Workers
  import Drain
  import opened Durability
  import ExactlyOnce
  import Stranding

  type System = Workers.System

  datatype Call = Claiming | Failing(error: string) | Reaping(id: Id) | Recovering(id: Id) | Tracing

  /** A record that a thread has read and not written back yet. */
  datatype Unwritten = Unwritten(id: Id, job: Job, call: Call)

  datatype Half = Half(s: System, held: map<string, Unwritten>)

  /** Whole is a step of the protocol; the claim is only here as a Read and a Write, the others in both
      forms. Abandon is a thread that dies in its recovery. */
  datatype Event =
    | Whole(e: Workers.Event)
    | Read(worker: string, call: Call, now: int)
    | Write(worker: string, now: int)
    | Abandon(worker: string)

  /** Whether the thread is where it makes this call. */
  predicate Calls(cfg: Config, s: System, w: string, call: Call, now: int) {
    match call
    case Claiming => s.HandOf(w).Recorded?
    case Failing(_) => s.HandOf(w).Running?
    case Tracing => s.HandOf(w).Running?
    case Reaping(id) => s.HandOf(w).Idle? && cfg.visibilityMs > 0 && id in s.db.leases && 0 <= s.db.leases[id] <= now
    case Recovering(id) => w != "" && s.HandOf(w).Down? && id in s.db.At(InFlight(w))
  }

  /** The thread whose step this is, unless it is its death. */
  predicate StepOf(x: Workers.Event, w: string) {
    (x.Pop? || x.Record? || x.RecordFailed? || x.Claim? || x.Finish? || x.Restart?) && x.worker == w
  }

  ghost predicate Enabled(cfg: Config, h: Half, e: Event) {
    match e
    case Whole(x) => !x.Claim? && Workers.Enabled(cfg, h.s, x) && forall w :: w in h.held ==> !StepOf(x, w)
    case Read(w, call, now) => w !in h.held && Calls(cfg, h.s, w, call, now)
    case Write(w, _) => w in h.held
    case Abandon(w) => w in h.held && h.s.HandOf(w).Down?
  }

  /** The job that the call is about. */
  function Subject(s: System, w: string, call: Call): Id {
    match call
    case Reaping(id) => id
    case Recovering(id) => id
    case _ => match s.HandOf(w)
              case Recorded(id) => id
              case Running(id) => id
              case _ => ""
  }

  /** Whether the call goes on to write the record back: it must be live, and recovery must own it; the
      trace id goes to any record. */
  predicate Keeps(s: System, w: string, call: Call, id: Id) {
    match call
    case Tracing => id in s.db.blobs
    case Recovering(_) => s.Live(id) && Owns(s.db.blobs[id], w)
    case _ => s.Live(id)
  }

  const LATE := "visibility timeout exceeded"

  /** The call as one step, on this store. */
  function Done(cfg: Config, s: System, db: Store, w: string, call: Call, id: Id, now: int): System {
    match call
    case Claiming =>
      var (db1, got) := Claimed(cfg, db, w, id, now);
      s.With(db1).Put(w, if got.Some? then Workers.Running(id) else Workers.Idle)
    case Failing(error) => s.With(Failure(cfg, db, id, error, now)).Put(w, Workers.Idle)
    case Reaping(_) => s.With(Failure(cfg, db, id, LATE, now))
    case Recovering(_) => s.With(RecoveredOne(db, w, id))
    case Tracing => s.With(if id in db.blobs then db.SetBlob(id, db.blobs[id]) else db)
  }

  /** A reaper takes the lease first. */
  function Opened(s: System, call: Call): Store { if call.Reaping? then s.db.ZRemLease(call.id) else s.db }

  /** A Write goes by what was read, whatever the record says by now. */
  function Step(cfg: Config, h: Half, e: Event): Half {
    match e
    case Whole(x) => Half(Workers.Step(cfg, h.s, x), if x.Crash? then h.held - {x.worker} else h.held)
    case Read(w, call, now) =>
      var id := Subject(h.s, w, call);
      if Keeps(h.s, w, call, id) then Half(h.s.With(Opened(h.s, call)), h.held[w := Unwritten(id, h.s.db.blobs[id], call)])
      else Half(Done(cfg, h.s, Opened(h.s, call), w, call, id, now), h.held)
    case Write(w, now) =>
      if w !in h.held then h else
        var r := h.held[w];
        Half(Done(cfg, h.s, Restored(h.s.db, r), w, r.call, r.id, now), h.held - {w})
    case Abandon(w) => h.(held := h.held - {w})
  }

  function Restored(db: Store, r: Unwritten): Store { db.(blobs := db.blobs[r.id := r.job]) }

  function Run(cfg: Config, h: Half, es: seq<Event>): Half
    decreases |es|
  { if es == [] then h else Step(cfg, Run(cfg, h, es[..|es| - 1]), es[|es| - 1]) }

  const START := Half(Workers.START, map[])

  /** The job id that pick returns in this step, if any. */
  function Handed(h: Half, e: Event): Option<Id> {
    if e.Write? && e.worker in h.held && h.held[e.worker].call.Claiming? && !h.held[e.worker].job.status.Terminal()
    then Some(h.held[e.worker].id) else None
  }

  predicate Revives(h: Half, e: Event, id: Id) { e.Whole? && Durability.Revives(h.s, e.e, id) }

  ghost predicate Proceeds(cfg: Config, h: Half, es: seq<Event>)
    decreases |es|
  { es == [] || (Proceeds(cfg, h, es[..|es| - 1]) && Enabled(cfg, Run(cfg, h, es[..|es| - 1]), es[|es| - 1])) }

  predicate Unrevived(cfg: Config, h: Half, es: seq<Event>, id: Id)
    decreases |es|
  { es == [] || (Unrevived(cfg, h, es[..|es| - 1], id) && !Revives(Run(cfg, h, es[..|es| - 1]), es[|es| - 1], id)) }

  predicate Hands(cfg: Config, h: Half, es: seq<Event>, id: Id)
    decreases |es|
  { es != [] && (Hands(cfg, h, es[..|es| - 1], id) || Handed(Run(cfg, h, es[..|es| - 1]), es[|es| - 1]) == Some(id)) }

  /** From h, some continuation without a requeue has the job alive again. */
  ghost predicate MayLiveAgain(cfg: Config, h: Half, id: Id) {
    exists es :: Proceeds(cfg, h, es) && Unrevived(cfg, h, es, id) && Run(cfg, h, es).s.Live(id)
  }

  /** From h, some continuation without a requeue hands the job out. */
  ghost predicate MayBeHanded(cfg: Config, h: Half, id: Id) {
    exists es :: Proceeds(cfg, h, es) && Unrevived(cfg, h, es, id) && Hands(cfg, h, es, id)
  }

  /** A Read and a Write with nothing between are the call as one step; so is a Read alone that does not
      go on to write. */
  lemma TogetherTheyAreTheCall(cfg: Config, h: Half, w: string, call: Call, now: int)
    requires w !in h.held
    ensures var id := Subject(h.s, w, call);
      var h1, whole := Step(cfg, h, Read(w, call, now)), Half(Done(cfg, h.s, Opened(h.s, call), w, call, id, now), h.held);
      if Keeps(h.s, w, call, id) then Step(cfg, h1, Write(w, now)) == whole else h1 == whole
  {
    var id := Subject(h.s, w, call);
    if Keeps(h.s, w, call, id) {
      var r := Unwritten(id, h.s.db.blobs[id], call);
      assert h.held[w := r] - {w} == h.held;
      assert Restored(Opened(h.s, call), r) == Opened(h.s, call);
    }
  }

  /** Those steps are the protocol's: its claim, its failure, and its sweeps' handling of one id. */
  lemma TheCallsAreTheProtocols(cfg: Config, s: System, w: string, error: string, id: Id, now: int)
    ensures s.HandOf(w).Recorded? ==> Done(cfg, s, s.db, w, Claiming, s.HandOf(w).id, now) == Workers.Step(cfg, s, Workers.Claim(w, now))
    ensures s.HandOf(w).Running? ==>
              Done(cfg, s, s.db, w, Failing(error), s.HandOf(w).id, now) ==
                Workers.Step(cfg, s, Workers.Finish(w, Workers.Throws(error), now))
    ensures id in s.db.leases ==> Done(cfg, s, Opened(s, Reaping(id)), w, Reaping(id), id, now).db == ReapedOne(cfg, s.db, id, now)
    ensures Done(cfg, s, s.db, w, Recovering(id), id, now).db == RecoveredOne(s.db, w, id)
    ensures Pinned(s.db, id) ==> Done(cfg, s, s.db, w, Tracing, id, now) == s
  {
    if Pinned(s.db, id) { assert s.db.blobs[id := s.db.blobs[id].(expires := false)] == s.db.blobs; }
  }

  // ---- What a cancel ends --------------------------------------------------------------------

  /** The record is live once this is written: what was read is, and for a failure there is an attempt
      left. */
  predicate LiveWrite(r: Unwritten) {
    !r.job.status.Terminal() && (r.call.Failing? || r.call.Reaping? ==> r.job.retryCount + 1 < r.job.maxRetries)
  }

  /** Some thread holds a read of the job whose write would be live. */
  ghost predicate HalfWritten(h: Half, id: Id) { exists w :: w in h.held && h.held[w].id == id && LiveWrite(h.held[w]) }

  lemma ExhaustedIsDead(cfg: Config, db: Store, id: Id, error: string, now: int)
    requires id in db.blobs && !db.blobs[id].status.Terminal()
    ensures var db' := Failure(cfg, db, id, error, now);
      id in db'.blobs && (db'.blobs[id].status.Terminal() <==> db.blobs[id].retryCount + 1 >= db.blobs[id].maxRetries)
  {
    var job := db.blobs[id].(retryCount := db.blobs[id].retryCount + 1, error := error);
    UntrackingKeepsRecords(cfg, db, id, job.worker);
    hide Untracked, Delay;
  }

  lemma TerminalStays(cfg: Config, db: Store, id: Id, error: string, now: int)
    requires id in db.blobs && db.blobs[id].status.Terminal()
    ensures Failure(cfg, db, id, error, now).blobs == db.blobs
  { UntrackingKeepsRecords(cfg, db, id, db.blobs[id].worker); }

  lemma WritesLiveExactly(cfg: Config, s: System, w: string, r: Unwritten, now: int)
    ensures Done(cfg, s, Restored(s.db, r), w, r.call, r.id, now).Live(r.id) <==> LiveWrite(r)
  {
    var db := Restored(s.db, r);
    hide Failure;
    if r.call.Failing? || r.call.Reaping? {
      var error := if r.call.Failing? then r.call.error else LATE;
      if r.job.status.Terminal() { TerminalStays(cfg, db, r.id, error, now); } else { ExhaustedIsDead(cfg, db, r.id, error, now); }
    }
  }

  lemma DoneKeepsOver(cfg: Config, s: System, db: Store, w: string, call: Call, x: Id, now: int, id: Id)
    requires NotLive(db, id)
    ensures NotLive(Done(cfg, s, db, w, call, x, now).db, id)
  {
    hide Failure, Claimed;
    match call
    case Claiming => ClaimKeepsOver(cfg, db, w, x, now, id);
    case Failing(error) => FailureKeepsOver(cfg, db, x, error, now, id);
    case Reaping(_) => FailureKeepsOver(cfg, db, x, LATE, now, id);
    case _ =>
  }

  lemma DoneIssuesNothing(cfg: Config, s: System, db: Store, w: string, call: Call, x: Id, now: int)
    ensures Done(cfg, s, db, w, call, x, now).issued == s.issued
  { hide Failure, Claimed, RecoveredOne; }

  lemma WriteKeepsOver(cfg: Config, h: Half, w: string, now: int, id: Id)
    requires w in h.held && Over(h.s, id) && !HalfWritten(h, id)
    ensures Over(Step(cfg, h, Write(w, now)).s, id)
  {
    var r := h.held[w];
    DoneIssuesNothing(cfg, h.s, Restored(h.s.db, r), w, r.call, r.id, now);
    if r.id == id {
      WritesLiveExactly(cfg, h.s, w, r, now);
    } else {
      DoneKeepsOver(cfg, h.s, Restored(h.s.db, r), w, r.call, r.id, now, id);
    }
    hide Done;
  }

  lemma ReadKeepsOver(cfg: Config, h: Half, w: string, call: Call, now: int, id: Id)
    requires Over(h.s, id) && !HalfWritten(h, id)
    ensures var h' := Step(cfg, h, Read(w, call, now)); Over(h'.s, id) && !HalfWritten(h', id)
  {
    var x := Subject(h.s, w, call);
    DoneIssuesNothing(cfg, h.s, Opened(h.s, call), w, call, x, now);
    DoneKeepsOver(cfg, h.s, Opened(h.s, call), w, call, x, now, id);
    hide Done;
  }

  lemma OverStep(cfg: Config, h: Half, e: Event, id: Id)
    requires Enabled(cfg, h, e) && !Revives(h, e, id) && Over(h.s, id) && !HalfWritten(h, id)
    ensures Over(Step(cfg, h, e).s, id) && !HalfWritten(Step(cfg, h, e), id) && Handed(h, e) != Some(id)
  {
    match e
    case Whole(x) => OnlyRequeueRevives(cfg, h.s, x, id); hide Workers.Step;
    case Read(w, call, now) => ReadKeepsOver(cfg, h, w, call, now, id); hide Step;
    case Write(w, now) => WriteKeepsOver(cfg, h, w, now, id); hide Done;
    case Abandon(w) =>
  }

  lemma {:induction false} StaysOver(cfg: Config, h: Half, es: seq<Event>, id: Id)
    requires Over(h.s, id) && !HalfWritten(h, id)
    requires Proceeds(cfg, h, es) && Unrevived(cfg, h, es, id)
    ensures var h' := Run(cfg, h, es); Over(h'.s, id) && !HalfWritten(h', id) && !Hands(cfg, h, es, id)
    decreases |es|
  {
    if es != [] {
      var front, e := es[..|es| - 1], es[|es| - 1];
      StaysOver(cfg, h, front, id);
      OverStep(cfg, Run(cfg, h, front), e, id);
    }
  }

  lemma CancelEnds(cfg: Config, h: Half, id: Id)
    requires Cancellable(h.s.db, id) && id in h.s.issued
    ensures var h' := Step(cfg, h, Whole(Workers.Cancel(id)));
      Over(h'.s, id) && h'.held == h.held && (HalfWritten(h', id) <==> HalfWritten(h, id)) && forall w :: h'.s.HandOf(w) == h.s.HandOf(w)
  {}

  lemma Alone(cfg: Config, h: Half, e: Event, id: Id)
    requires Enabled(cfg, h, e) && !Revives(h, e, id)
    ensures Proceeds(cfg, h, [e]) && Unrevived(cfg, h, [e], id) && Run(cfg, h, [e]) == Step(cfg, h, e)
  { assert [e][..0] == [] && Run(cfg, h, []) == h; }

  /** After a successful cancel the job can come alive again, without a requeue, if and only if some
      thread holds an unwritten read of it whose write is live: a live one, with an attempt left if it is
      fail that has read it. And without one no later pick returns the job. */
  lemma CancelIsFinalUnlessHalfWritten(cfg: Config, h: Half, id: Id)
    requires Cancellable(h.s.db, id) && id in h.s.issued
    ensures var h' := Step(cfg, h, Whole(Workers.Cancel(id)));
      && (MayLiveAgain(cfg, h', id) <==> HalfWritten(h, id))
      && (MayBeHanded(cfg, h', id) ==> HalfWritten(h, id))
  {
    var h' := Step(cfg, h, Whole(Workers.Cancel(id)));
    CancelEnds(cfg, h, id);
    hide Step, Enabled;
    if HalfWritten(h, id) {
      var w :| w in h.held && h.held[w].id == id && LiveWrite(h.held[w]);
      WriteLives(cfg, h', w, 0);
      Alone(cfg, h', Write(w, 0), id);
    } else {
      forall es | Proceeds(cfg, h', es) && Unrevived(cfg, h', es, id) ensures !Hands(cfg, h', es, id) && !Run(cfg, h', es).s.Live(id) {
        StaysOver(cfg, h', es, id);
      }
    }
  }

  lemma WriteLives(cfg: Config, h: Half, w: string, now: int)
    requires w in h.held && LiveWrite(h.held[w])
    ensures Enabled(cfg, h, Write(w, now)) && Step(cfg, h, Write(w, now)).s.Live(h.held[w].id)
  { WritesLiveExactly(cfg, h.s, w, h.held[w], now); }

  // ---- It happens ----------------------------------------------------------------------------

  /** A thread with an unwritten read is where it made the call, and what it read was worth writing. */
  predicate Fits(s: System, w: string, r: Unwritten) {
    match r.call
    case Claiming => s.HandOf(w) == Workers.Recorded(r.id) && !r.job.status.Terminal()
    case Failing(_) => s.HandOf(w) == Workers.Running(r.id) && !r.job.status.Terminal()
    case Reaping(_) => s.HandOf(w).Idle? && !r.job.status.Terminal()
    case Recovering(_) => w != "" && s.HandOf(w).Down? && !r.job.status.Terminal() && Owns(r.job, w)
    case Tracing => s.HandOf(w) == Workers.Running(r.id)
  }

  ghost predicate Paired(h: Half) { forall w :: w in h.held ==> Fits(h.s, w, h.held[w]) }

  /** A step of the protocol leaves a thread alone that is between its Read and its Write, unless it
      ends it. */
  lemma OthersLeaveItAlone(cfg: Config, s: System, x: Workers.Event, w: string)
    requires Workers.Enabled(cfg, s, x) && !StepOf(x, w) && !(x.Crash? && x.worker == w)
    ensures Workers.Step(cfg, s, x).HandOf(w) == s.HandOf(w)
  {}

  lemma DoneLeavesOthers(cfg: Config, s: System, db: Store, w: string, call: Call, x: Id, now: int)
    ensures forall v :: v != w ==> Done(cfg, s, db, w, call, x, now).HandOf(v) == s.HandOf(v)
  { hide Failure, Claimed, RecoveredOne; }

  lemma WholeIsPaired(cfg: Config, h: Half, x: Workers.Event)
    requires Paired(h) && Enabled(cfg, h, Whole(x))
    ensures Paired(Step(cfg, h, Whole(x)))
  {
    var h' := Step(cfg, h, Whole(x));
    forall w | w in h'.held ensures Fits(h'.s, w, h'.held[w]) {
      assert w in h.held && Fits(h.s, w, h.held[w]);
      OthersLeaveItAlone(cfg, h.s, x, w);
    }
  }

  lemma ReadIsPaired(cfg: Config, h: Half, w: string, call: Call, now: int)
    requires Paired(h) && Enabled(cfg, h, Read(w, call, now))
    ensures Paired(Step(cfg, h, Read(w, call, now)))
  {
    DoneLeavesOthers(cfg, h.s, Opened(h.s, call), w, call, Subject(h.s, w, call), now);
    hide Done;
  }

  lemma WriteIsPaired(cfg: Config, h: Half, w: string, now: int)
    requires Paired(h) && w in h.held
    ensures Paired(Step(cfg, h, Write(w, now)))
  {
    DoneLeavesOthers(cfg, h.s, Restored(h.s.db, h.held[w]), w, h.held[w].call, h.held[w].id, now);
    hide Done;
  }

  lemma StepIsPaired(cfg: Config, h: Half, e: Event)
    requires Paired(h) && Enabled(cfg, h, e)
    ensures Paired(Step(cfg, h, e))
  {
    match e
    case Whole(x) => WholeIsPaired(cfg, h, x); hide Step;
    case Read(w, call, now) => ReadIsPaired(cfg, h, w, call, now); hide Step;
    case Write(w, now) => WriteIsPaired(cfg, h, w, now); hide Step;
    case Abandon(w) =>
  }

  lemma {:induction false} RunsArePaired(cfg: Config, es: seq<Event>)
    requires Proceeds(cfg, START, es)
    ensures Paired(Run(cfg, START, es))
    decreases |es|
  {
    if es != [] {
      RunsArePaired(cfg, es[..|es| - 1]);
      StepIsPaired(cfg, Run(cfg, START, es[..|es| - 1]), es[|es| - 1]);
    }
  }

  lemma Then(cfg: Config, es: seq<Event>, h: Half, e: Event) returns (es': seq<Event>)
    requires Proceeds(cfg, START, es) && Run(cfg, START, es) == h && Enabled(cfg, h, e)
    ensures Proceeds(cfg, START, es') && Run(cfg, START, es') == Step(cfg, h, e)
  {
    es' := es + [e];
    assert es'[..|es|] == es;
  }

  /** Every run of the protocol is a run with its claims cut in two. */
  lemma {:induction false} Refines(cfg: Config, es: seq<Workers.Event>) returns (hs: seq<Event>)
    requires Durability.Proceeds(cfg, Workers.START, es)
    ensures Proceeds(cfg, START, hs) && Run(cfg, START, hs) == Half(Workers.Run(cfg, Workers.START, es), map[])
    decreases |es|
  {
    hs := [];
    if es != [] {
      var e := es[|es| - 1];
      hs := Refines(cfg, es[..|es| - 1]);
      var h := Run(cfg, START, hs);
      if e.Claim? {
        var read := Read(e.worker, Claiming, e.now);
        TogetherTheyAreTheCall(cfg, h, e.worker, Claiming, e.now);
        TheCallsAreTheProtocols(cfg, h.s, e.worker, "", "", e.now);
        hs := Then(cfg, hs, h, read);
        if Keeps(h.s, e.worker, Claiming, Subject(h.s, e.worker, Claiming)) {
          hs := Then(cfg, hs, Step(cfg, h, read), Write(e.worker, e.now));
        }
      } else {
        hs := Then(cfg, hs, h, Whole(e));
        assert e.Crash? ==> h.held - {e.worker} == map[];
      }
    }
  }

  /** The interleaving: pop, GET, cancel, SET. The cancel has succeeded, and the job runs. */
  lemma TheCancelIsOverwritten(cfg: Config, h: Half, w: string, id: Id, now: int)
    requires h.s.HandOf(w) == Workers.Recorded(id) && w !in h.held && Cancellable(h.s.db, id)
    ensures var h1 := Step(cfg, h, Read(w, Claiming, now));
      var h2 := Step(cfg, h1, Whole(Workers.Cancel(id)));
      var h3 := Step(cfg, h2, Write(w, now));
      && Enabled(cfg, h, Read(w, Claiming, now)) && Enabled(cfg, h1, Whole(Workers.Cancel(id))) && Enabled(cfg, h2, Write(w, now))
      && Cancellable(h1.s.db, id) && h2.s.db.blobs[id].status.Failed? && h2.s.db.blobs[id].expires
      && h3.s.db.blobs[id].status.Processing? && !h3.s.db.blobs[id].expires && h3.s.HandOf(w) == Workers.Running(id)
  {}

  lemma {:induction false} LegalProceeds(cfg: Config, es: seq<Workers.Event>)
    requires ExactlyOnce.Legal(cfg, Workers.START, es)
    ensures Durability.Proceeds(cfg, Workers.START, es)
    decreases |es|
  { if es != [] { LegalProceeds(cfg, es[..|es| - 1]); } }

  // ---- And the job runs ----------------------------------------------------------------------

  lemma {:induction false} Prepend(cfg: Config, h: Half, e: Event, es: seq<Event>, id: Id)
    requires Enabled(cfg, h, e) && !Revives(h, e, id) && Proceeds(cfg, Step(cfg, h, e), es) && Unrevived(cfg, Step(cfg, h, e), es, id)
    ensures Proceeds(cfg, h, [e] + es) && Unrevived(cfg, h, [e] + es, id) && Run(cfg, h, [e] + es) == Run(cfg, Step(cfg, h, e), es)
    ensures Hands(cfg, Step(cfg, h, e), es, id) || Handed(h, e) == Some(id) ==> Hands(cfg, h, [e] + es, id)
    decreases |es|
  {
    hide Step, Enabled, Revives, Handed;
    if es == [] {
      assert [e] + es == [e] && [e][..0] == [];
      assert Run(cfg, h, [e]) == Step(cfg, Run(cfg, h, []), e);
    } else {
      var n := |es| - 1;
      Prepend(cfg, h, e, es[..n], id);
      assert ([e] + es)[..n + 1] == [e] + es[..n];
    }
  }

  lemma ThenHanded(cfg: Config, h: Half, e: Event, id: Id)
    requires Enabled(cfg, h, e) && !Revives(h, e, id) && (Handed(h, e) == Some(id) || MayBeHanded(cfg, Step(cfg, h, e), id))
    ensures MayBeHanded(cfg, h, id)
  {
    hide Enabled, Step, Handed, Revives;
    if Handed(h, e) == Some(id) {
      Prepend(cfg, h, e, [], id);
    } else {
      var h1 := Step(cfg, h, e);
      var es :| Proceeds(cfg, h1, es) && Unrevived(cfg, h1, es, id) && Hands(cfg, h1, es, id);
      Prepend(cfg, h, e, es, id);
    }
  }

  /** A step of a thread that holds nothing, other than a claim. */
  lemma ByTheWay(cfg: Config, h: Half, x: Workers.Event, v: string, id: Id)
    requires Workers.Enabled(cfg, h.s, x) && v !in h.held && (x.Pop? || x.Crash? || x.Restart? || x.Finish?) && x.worker == v
    requires MayBeHanded(cfg, Half(Workers.Step(cfg, h.s, x), h.held), id)
    ensures MayBeHanded(cfg, h, id)
  {
    hide Workers.Step, Workers.Enabled, MayBeHanded;
    assert h.held - {v} == h.held;
    ThenHanded(cfg, h, Whole(x), id);
  }

  lemma ClaimedIsHanded(cfg: Config, h: Half, v: string, id: Id)
    requires v !in h.held && h.s.HandOf(v) == Workers.Recorded(id) && h.s.Live(id)
    ensures MayBeHanded(cfg, h, id)
  {
    hide MayBeHanded;
    var h1 := Step(cfg, h, Read(v, Claiming, 0));
    ThenHanded(cfg, h1, Write(v, 0), id);
    ThenHanded(cfg, h, Read(v, Claiming, 0), id);
  }

  /** A thread that takes the ids before it, one after the other, comes to this one. */
  lemma {:induction false} QueuedIsHanded(cfg: Config, h: Half, v: string, t: string, id: Id, n: nat)
    requires Pinned(h.s.db, id) && v != "" && v !in h.held && h.s.HandOf(v).Idle? && Stranding.Ahead(h.s, t, id, n)
    ensures MayBeHanded(cfg, h, id)
    decreases n
  {
    var s1 := Workers.Step(cfg, h.s, Workers.Pop(v, [t]));
    if n == 0 {
      Stranding.FirstIsPopped(cfg, h.s, v, t, id);
      hide Workers.Step, Workers.Enabled, MayBeHanded;
      ClaimedIsHanded(cfg, Half(s1, h.held), v, id);
      ByTheWay(cfg, h, Workers.Pop(v, [t]), v, id);
    } else {
      hide Pinned, Workers.Step, Workers.Enabled, MayBeHanded, Stranding.Ahead;
      Stranding.OneFewerAhead(cfg, h.s, v, t, id, n);
      var s2 := Workers.Step(cfg, s1, Workers.Crash(v));
      QueuedIsHanded(cfg, Half(Workers.Step(cfg, s2, Workers.Restart(v)), h.held), v, t, id, n - 1);
      ByTheWay(cfg, Half(s2, h.held), Workers.Restart(v), v, id);
      ByTheWay(cfg, Half(s1, h.held), Workers.Crash(v), v, id);
      ByTheWay(cfg, h, Workers.Pop(v, [t]), v, id);
    }
  }

  lemma {:induction false} Longer(ws: set<string>) returns (n: nat)
    ensures n > 0 && forall w :: w in ws ==> |w| < n
  {
    n := 1;
    if ws != {} {
      var w :| w in ws;
      n := Longer(ws - {w});
      n := n + |w| + 1;
    }
  }

  /** In a queue, or parked until a time that a sweep can reach. */
  predicate OutThere(cfg: Config, db: Store, id: Id) {
    && id in db.blobs
    && (id in db.At(Queue(db.blobs[id].jtype)) || (cfg.backoffBase > 0 && id in db.delayed && db.delayed[id] >= 0))
  }

  lemma InAQueueIsHanded(cfg: Config, h: Half, t: string, id: Id)
    requires Pinned(h.s.db, id) && id in h.s.db.At(Queue(t))
    ensures MayBeHanded(cfg, h, id)
  {
    var n := Longer(h.held.Keys + h.s.hands.Keys);
    var v := seq(n, _ => 'x');
    assert v !in h.held.Keys + h.s.hands.Keys;
    var l := h.s.db.At(Queue(t));
    var i :| 0 <= i < |l| && l[i] == id;
    Stranding.RecoveryKeepsAhead(cfg, h.s, v, t, id, |l| - 1 - i);
    hide Pinned, Workers.Step, Workers.Enabled, MayBeHanded, Stranding.Ahead;
    QueuedIsHanded(cfg, Half(Workers.Step(cfg, h.s, Workers.Restart(v)), h.held), v, t, id, |l| - 1 - i);
    ByTheWay(cfg, h, Workers.Restart(v), v, id);
  }

  lemma PromotedOneIsQueued(db: Store, x: Id, id: Id)
    requires Pinned(db, id)
    ensures var db' := PromotedOne(db, x);
      && db'.blobs == db.blobs && (id in db.delayed && x != id ==> id in db'.delayed)
      && forall t :: id in db.At(Queue(t)) || (x == id && id in db.delayed && t == db.blobs[id].jtype) ==> id in db'.At(Queue(t))
  {}

  lemma {:induction false} PromotedIsQueued(db: Store, ids: seq<Id>, id: Id)
    requires Pinned(db, id) && id in db.delayed
    ensures var db' := PromotedAll(db, ids);
      db'.blobs == db.blobs && if id in ids then id in db'.At(Queue(db.blobs[id].jtype)) else id in db'.delayed
    decreases |ids|
  {
    if ids != [] {
      var front := ids[..|ids| - 1];
      PromotedIsQueued(db, front, id);
      PromotedOneIsQueued(PromotedAll(db, front), ids[|ids| - 1], id);
      assert id in ids <==> id in front || id == ids[|ids| - 1];
    }
  }

  lemma OutThereIsHanded(cfg: Config, h: Half, id: Id)
    requires Pinned(h.s.db, id) && OutThere(cfg, h.s.db, id)
    ensures MayBeHanded(cfg, h, id)
  {
    var t := h.s.db.blobs[id].jtype;
    if id in h.s.db.At(Queue(t)) {
      InAQueueIsHanded(cfg, h, t, id);
    } else {
      var now := h.s.db.delayed[id];
      var ids := Drain.Enumerate(set x | x in h.s.db.delayed && 0 <= h.s.db.delayed[x] <= now);
      PromotedIsQueued(h.s.db, ids, id);
      hide MayBeHanded;
      InAQueueIsHanded(cfg, Step(cfg, h, Whole(Workers.Promote(ids, now))), t, id);
      ThenHanded(cfg, h, Whole(Workers.Promote(ids, now)), id);
    }
  }

  /** A failure with an attempt left puts the job where it can be picked again. */
  lemma FailurePutsItOut(cfg: Config, db: Store, id: Id, error: string)
    requires id in db.blobs && !db.blobs[id].status.Terminal() && db.blobs[id].retryCount + 1 < db.blobs[id].maxRetries
    ensures var db' := Failure(cfg, db, id, error, 0); Pinned(db', id) && OutThere(cfg, db', id)
  {
    var job := db.blobs[id].(retryCount := db.blobs[id].retryCount + 1, error := error);
    var db1 := Untracked(cfg, db, id, job.worker);
    UntrackingKeepsRecords(cfg, db, id, job.worker);
    assert Delay(cfg, job.retryCount) > 0 ==> cfg.backoffBase > 0;
    hide Untracked, Delay;
    assert Failure(cfg, db, id, error, 0) == Rescheduled(db1, id, job, 0, Delay(cfg, job.retryCount));
  }

  /** Its write is live, and for a trace id its runner has an attempt left. */
  predicate HandsOut(r: Unwritten) { LiveWrite(r) && (r.call.Tracing? ==> r.job.retryCount + 1 < r.job.maxRetries) }

  lemma TracedIsHanded(cfg: Config, h: Half, w: string)
    requires w in h.held && h.held[w].call.Tracing? && HandsOut(h.held[w]) && h.s.HandOf(w) == Workers.Running(h.held[w].id)
    ensures MayBeHanded(cfg, h, h.held[w].id)
  {
    var r, e := h.held[w], Write(w, 0);
    var g, x := Step(cfg, h, e), Workers.Finish(w, Workers.Throws(""), 0);
    assert g.s.db.blobs[r.id] == r.job.(expires := false) && g.s.HandOf(w) == Workers.Running(r.id) && w !in g.held;
    FailurePutsItOut(cfg, g.s.db, r.id, "");
    hide Failure, MayBeHanded;
    OutThereIsHanded(cfg, Half(Workers.Step(cfg, g.s, x), g.held), r.id);
    ByTheWay(cfg, g, x, w, r.id);
    ThenHanded(cfg, h, e, r.id);
  }

  lemma RecoveredIsOut(cfg: Config, db: Store, w: string, id: Id)
    requires id in db.blobs && !db.blobs[id].status.Terminal() && Owns(db.blobs[id], w)
    ensures var db' := RecoveredOne(db, w, id); Pinned(db', id) && OutThere(cfg, db', id)
  {}

  lemma WrittenIsHanded(cfg: Config, h: Half, w: string)
    requires w in h.held && (h.held[w].call.Failing? || h.held[w].call.Reaping? || h.held[w].call.Recovering?)
    requires HandsOut(h.held[w]) && Fits(h.s, w, h.held[w])
    ensures MayBeHanded(cfg, h, h.held[w].id)
  {
    var r := h.held[w];
    var db := Restored(h.s.db, r);
    match r.call {
      case Failing(error) => FailurePutsItOut(cfg, db, r.id, error);
      case Reaping(_) => FailurePutsItOut(cfg, db, r.id, LATE);
      case _ => RecoveredIsOut(cfg, db, w, r.id);
    }
    hide Failure, RecoveredOne, MayBeHanded, OutThere, Pinned;
    OutThereIsHanded(cfg, Step(cfg, h, Write(w, 0)), r.id);
    ThenHanded(cfg, h, Write(w, 0), r.id);
  }

  /** Whatever the call is: after a successful cancel the unwritten read can bring the job back to a
      worker. */
  lemma TheWriteHandsItOut(cfg: Config, h: Half, id: Id, w: string)
    requires Paired(h) && Cancellable(h.s.db, id) && id in h.s.issued
    requires w in h.held && h.held[w].id == id && HandsOut(h.held[w])
    ensures MayBeHanded(cfg, Step(cfg, h, Whole(Workers.Cancel(id))), id)
  {
    var h' := Step(cfg, h, Whole(Workers.Cancel(id)));
    CancelEnds(cfg, h, id);
    assert h'.held[w] == h.held[w] && Fits(h'.s, w, h'.held[w]) by { assert Fits(h.s, w, h.held[w]); }
    hide Step, MayBeHanded;
    match h.held[w].call
    case Claiming => ThenHanded(cfg, h', Write(w, 0), id);
    case Tracing => TracedIsHanded(cfg, h', w);
    case _ => WrittenIsHanded(cfg, h', w);
  }

  /** So, with every unwritten trace id's runner having an attempt left, a later pick returns the cancelled
      job, without a requeue, if and only if some thread holds such a read. */
  lemma HandedExactlyIfHalfWritten(cfg: Config, h: Half, id: Id)
    requires Paired(h) && Cancellable(h.s.db, id) && id in h.s.issued
    requires forall w :: w in h.held && h.held[w].id == id && LiveWrite(h.held[w]) ==> HandsOut(h.held[w])
    ensures MayBeHanded(cfg, Step(cfg, h, Whole(Workers.Cancel(id))), id) <==> HalfWritten(h, id)
  {
    CancelIsFinalUnlessHalfWritten(cfg, h, id);
    hide Step, MayBeHanded, HandsOut;
    if HalfWritten(h, id) {
      var w :| w in h.held && h.held[w].id == id && LiveWrite(h.held[w]);
      TheWriteHandsItOut(cfg, h, id, w);
    }
  }

  /** From the empty queue such a state is reached, in which a cancel succeeds and comes to nothing. */
  lemma ACancelIsLost(cfg: Config) returns (es: seq<Event>)
    ensures var h := Run(cfg, START, es);
      Proceeds(cfg, START, es) && Cancellable(h.s.db, "job") && MayBeHanded(cfg, Step(cfg, h, Whole(Workers.Cancel("job"))), "job")
  {
    var ws := Stranding.Opening(cfg);
    ws := Stranding.Popping(cfg, ws, Stranding.WAITING, "a");
    LegalProceeds(cfg, ws);
    es := Refines(cfg, ws);
    var h := Run(cfg, START, es);
    assert h.s.HandOf("a") == Workers.Recorded("job") && Cancellable(h.s.db, "job") && "job" in h.s.issued;
    es := Then(cfg, es, h, Read("a", Claiming, 0));
    var h1 := Run(cfg, START, es);
    assert h1.s == h.s && "a" in h1.held && h1.held["a"].id == "job" && HandsOut(h1.held["a"]);
    RunsArePaired(cfg, es);
    TheWriteHandsItOut(cfg, h1, "job", "a");
  }
}
