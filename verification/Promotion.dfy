/** promote_due_jobs, command by command. Any number of promoters sweep the delayed set while
    workers take jobs and park them again, an admin cancels, and any command may fault, which
    means that it throws and has no effect. */
module Promotion {
  import opened JobModel

  /** Where a promoter is in its handling of one id. `Undoing` is the catch block, about to put the
      id back; `mine` says whether this promoter's own ZREM had taken it out. */
  datatype Task = Free | Removed(id: Id) | Checked(id: Id) | Undoing(id: Id, mine: bool)

  datatype Sweep = Off | On(now: int, pending: set<Id>, task: Task)

  /** held: the ids in workers' hands. live: the ids whose record exists and is not terminal.
      due: the time each id was last parked until. parks and pushes count, per id, how often fail
      has parked it and how often a promoter has pushed it. */
  datatype World = World(clock: int, delayed: map<Id, int>, queue: seq<Id>, held: set<Id>, live: set<Id>,
                         sweeps: map<string, Sweep>, due: map<Id, int>, parks: map<Id, nat>, pushes: map<Id, nat>)
  {
    function SweepOf(p: string): Sweep { if p in sweeps then sweeps[p] else Off }
    function TaskOf(p: string): Task { if SweepOf(p).On? then SweepOf(p).task else Free }
    function SetTask(p: string, t: Task): World
      requires SweepOf(p).On?
    { this.(sweeps := sweeps[p := SweepOf(p).(task := t)]) }
    function Parks(id: Id): nat { if id in parks then parks[id] else 0 }
    function Pushes(id: Id): nat { if id in pushes then pushes[id] else 0 }
  }

  datatype Event =
    | Tick(ms: nat)
    | Submit(id: Id)
    | Take(id: Id)
    | Park(id: Id, delay: nat)
    | Return(id: Id)
    | Finish(id: Id)
    | Cancel(id: Id)
    | Snapshot(p: string)
    | Zrem(p: string, id: Id, fault: bool)
    | Get(p: string, fault: bool)
    | Push(p: string, fault: bool)
    | Restore(p: string, fault: bool)
    | Die(p: string)

  /** Submit is of a new id. A worker parks, returns or finishes a job it holds. */
  predicate Enabled(w: World, e: Event) {
    match e
    case Tick(_) => true
    case Submit(id) => id !in w.live && id !in w.parks && id !in w.queue && id !in w.held && id !in w.delayed
                       && forall p :: p in w.sweeps ==> (w.TaskOf(p).Free? || w.TaskOf(p).id != id)
    case Take(id) => id in w.queue
    case Park(id, delay) => id in w.held && id in w.live && delay > 0
    case Return(id) => id in w.held && id in w.live
    case Finish(id) => id in w.held
    case Cancel(id) => id in w.live
    case Snapshot(p) => w.TaskOf(p).Free?
    case Zrem(p, id, _) => w.SweepOf(p).On? && w.TaskOf(p).Free? && id in w.SweepOf(p).pending
    case Get(p, _) => w.TaskOf(p).Removed?
    case Push(p, _) => w.TaskOf(p).Checked?
    case Restore(p, _) => w.TaskOf(p).Undoing?
    case Die(p) => w.SweepOf(p).On?
  }

  function Step(w: World, e: Event): World {
    if !Enabled(w, e) then w else
    match e
    case Tick(ms) => w.(clock := w.clock + ms)
    case Submit(id) => w.(queue := [id] + w.queue, live := w.live + {id})
    case Take(id) =>
      // A popped id whose record is terminal is dropped by the claim.
      w.(queue := Without(w.queue, id), held := if id in w.live then w.held + {id} else w.held)
    case Park(id, delay) =>
      w.(held := w.held - {id}, delayed := w.delayed[id := w.clock + delay], due := w.due[id := w.clock + delay],
         parks := w.parks[id := w.Parks(id) + 1])
    case Return(id) => w.(held := w.held - {id}, queue := [id] + w.queue)
    case Finish(id) => w.(held := w.held - {id}, live := w.live - {id})
    case Cancel(id) => w.(live := w.live - {id}, queue := Without(w.queue, id), delayed := w.delayed - {id})
    case Snapshot(p) =>
      w.(sweeps := w.sweeps[p := On(w.clock, (set id | id in w.delayed && 0 <= w.delayed[id] <= w.clock), Free)])
    case Zrem(p, id, fault) =>
      var rest := w.(sweeps := w.sweeps[p := w.SweepOf(p).(pending := w.SweepOf(p).pending - {id})]);
      if fault then rest.SetTask(p, Undoing(id, false))
      else if id in w.delayed then rest.SetTask(p, Removed(id)).(delayed := w.delayed - {id})
      else rest
    case Get(p, fault) =>
      var id := w.TaskOf(p).id;
      w.SetTask(p, if fault then Undoing(id, true) else if id in w.live then Checked(id) else Free)
    case Push(p, fault) =>
      var id := w.TaskOf(p).id;
      if fault then w.SetTask(p, Undoing(id, true))
      else w.SetTask(p, Free).(queue := [id] + w.queue, pushes := w.pushes[id := w.Pushes(id) + 1])
    case Restore(p, fault) =>
      var id := w.TaskOf(p).id;
      if fault then w.SetTask(p, Free)
      else w.SetTask(p, Free).(delayed := w.delayed[id := w.SweepOf(p).now])
    case Die(p) => w.(sweeps := w.sweeps[p := Off])
  }

  // ---- Each job in one spot ------------------------------------------------------------------

  datatype Spot = Parked | Queued | Held | Claimed(p: string) | Nowhere

  type Spots = map<Id, Spot>

  function At(spots: Spots, id: Id): Spot { if id in spots then spots[id] else Nowhere }

  /** The promoter has taken the id out of the delayed set and not passed it on yet. */
  predicate Takes(t: Task) { t.Removed? || t.Checked? || (t.Undoing? && t.mine) }

  predicate Claims(w: World, p: string, id: Id) { Takes(w.TaskOf(p)) && w.TaskOf(p).id == id }

  ghost predicate Spotted(w: World, spots: Spots) {
    && (forall id :: id in w.delayed <==> At(spots, id) == Parked)
    && (forall id :: id in w.queue <==> At(spots, id) == Queued)
    && NoDup(w.queue)
    && (forall id :: id in w.held <==> At(spots, id) == Held)
    && (forall p, id :: Claims(w, p, id) <==> At(spots, id) == Claimed(p))
    && (forall id :: id in w.live ==> At(spots, id) != Nowhere)
  }

  /** Every parking of a live job has been pushed once, unless it is still to be; the parking of a
      job that is over has been pushed at most once. */
  ghost predicate Counted(w: World, spots: Spots) {
    && (forall id :: id in w.live ==>
          w.Pushes(id) + (if At(spots, id).Parked? || At(spots, id).Claimed? then 1 else 0) == w.Parks(id))
    && (forall id :: w.Pushes(id) <= w.Parks(id))
    && (forall p :: w.TaskOf(p).Checked? ==> w.Pushes(w.TaskOf(p).id) < w.Parks(w.TaskOf(p).id))
  }

  ghost predicate Fits(w: World, spots: Spots) { Spotted(w, spots) && Counted(w, spots) }

  ghost predicate Inv(w: World) { exists spots: Spots :: Fits(w, spots) }

  /** The two faults the catch block does not cover, and a death it cannot. The block puts back an
      id that this promoter never took and that is by now somewhere else; or its own ZADD faults on
      an id it did take; or the thread dies with an id it took. */
  predicate Breaks(w: World, e: Event) {
    match e
    case Restore(p, fault) =>
      w.TaskOf(p).Undoing? &&
      var t := w.TaskOf(p);
      if t.mine then fault && t.id in w.live
      else !fault && t.id !in w.delayed && (t.id in w.queue || t.id in w.held || exists q :: q in w.sweeps && Claims(w, q, t.id))
    case Die(p) => Takes(w.TaskOf(p)) && w.TaskOf(p).id in w.live
    case _ => false
  }

  function IdOf(w: World, e: Event): Id
    requires Enabled(w, e)
  {
    match e
    case Submit(id) => id
    case Take(id) => id
    case Park(id, _) => id
    case Return(id) => id
    case Finish(id) => id
    case Cancel(id) => id
    case Zrem(_, id, _) => id
    case Get(p, _) => w.TaskOf(p).id
    case Push(p, _) => w.TaskOf(p).id
    case Restore(p, _) => w.TaskOf(p).id
    case Die(p) => if w.TaskOf(p).Free? then "" else w.TaskOf(p).id
    case _ => ""
  }

  /** Where a step takes the id it concerns. */
  function SpotAfter(w: World, e: Event, at: Spot): Spot
    requires Enabled(w, e)
  {
    match e
    case Submit(id) => Queued
    case Take(id) => if id in w.live then Held else Nowhere
    case Park(id, _) => Parked
    case Return(id) => Queued
    case Finish(id) => Nowhere
    case Cancel(id) => if at.Parked? || at.Queued? then Nowhere else at
    case Zrem(p, id, fault) => if !fault && id in w.delayed then Claimed(p) else at
    case Get(p, fault) => if !fault && w.TaskOf(p).id !in w.live then Nowhere else at
    case Push(p, fault) => if fault then at else Queued
    case Restore(p, fault) => if !fault then Parked else if w.TaskOf(p).mine then Nowhere else at
    case Die(p) => if Takes(w.TaskOf(p)) then Nowhere else at
    case _ => at
  }

  ghost predicate OnlyAt(w: World, id: Id, at: Spot) {
    && (id in w.delayed <==> at == Parked)
    && (id in w.queue <==> at == Queued)
    && NoDup(w.queue)
    && (id in w.held <==> at == Held)
    && (forall p :: Claims(w, p, id) <==> at == Claimed(p))
    && (id in w.live ==> at != Nowhere)
  }

  ghost predicate OthersStay(w: World, w': World, id: Id) {
    && (forall x :: x != id ==> (x in w'.delayed <==> x in w.delayed))
    && (forall x :: x != id ==> (x in w'.queue <==> x in w.queue))
    && (forall x :: x != id ==> (x in w'.held <==> x in w.held))
    && (forall p :: w'.TaskOf(p) == w.TaskOf(p) || (Concerns(w'.TaskOf(p), id) && Concerns(w.TaskOf(p), id)))
    && (forall x :: x != id ==> (x in w'.live <==> x in w.live))
  }

  predicate Concerns(t: Task, id: Id) { t.Free? || t.id == id }

  lemma ShiftsClaims(w: World, w': World, spots: Spots, id: Id, at: Spot)
    requires Spotted(w, spots) && OthersStay(w, w', id) && OnlyAt(w', id, at)
    ensures forall p, x :: Claims(w', p, x) <==> At(spots[id := at], x) == Claimed(p)
  {
    forall p, x ensures Claims(w', p, x) <==> At(spots[id := at], x) == Claimed(p) {
      if x == id {
        assert Claims(w', p, id) <==> at == Claimed(p);
      } else {
        assert Claims(w, p, x) <==> At(spots, x) == Claimed(p);
        assert w'.TaskOf(p) == w.TaskOf(p) || (Concerns(w'.TaskOf(p), id) && Concerns(w.TaskOf(p), id));
      }
    }
  }

  lemma Shift(w: World, w': World, spots: Spots, id: Id, at: Spot)
    requires Spotted(w, spots) && OthersStay(w, w', id) && OnlyAt(w', id, at)
    ensures Spotted(w', spots[id := at])
  {
    hide Claims;
    ShiftsClaims(w, w', spots, id, at);
  }

  predicate ByPromoter(e: Event) { e.Snapshot? || e.Zrem? || e.Get? || e.Push? || e.Restore? || e.Die? }

  lemma WorkerStepShifts(w: World, e: Event, at: Spot)
    requires Enabled(w, e) && !ByPromoter(e) && OnlyAt(w, IdOf(w, e), at)
    ensures OthersStay(w, Step(w, e), IdOf(w, e)) && OnlyAt(Step(w, e), IdOf(w, e), SpotAfter(w, e, at))
  {
    var w' := Step(w, e);
    assert forall p :: w'.TaskOf(p) == w.TaskOf(p);
    match e
    case Submit(id) => PushQueue(w.queue, id);
    case Return(id) => PushQueue(w.queue, id);
    case _ =>
  }

  lemma PushQueue(queue: seq<Id>, id: Id)
    requires NoDup(queue) && id !in queue
    ensures NoDup([id] + queue) && forall x :: x in [id] + queue <==> x == id || x in queue
  {}

  /** A promoter's step changes its own sweep and no other, and no time. */
  lemma OtherPromotersStay(w: World, e: Event)
    requires Enabled(w, e) && ByPromoter(e)
    ensures forall p :: p != e.p ==> Step(w, e).SweepOf(p) == w.SweepOf(p)
    ensures forall p :: p != e.p ==> Step(w, e).TaskOf(p) == w.TaskOf(p)
    ensures Step(w, e).clock == w.clock && Step(w, e).due == w.due
  {
    var w' := Step(w, e);
    OnlyItsSweep(w, e);
    assert forall p :: p != e.p ==> w'.SweepOf(p) == w.SweepOf(p);
  }

  lemma OnlyItsSweep(w: World, e: Event)
    requires Enabled(w, e) && ByPromoter(e)
    ensures e.p in Step(w, e).sweeps && Step(w, e).sweeps == w.sweeps[e.p := Step(w, e).sweeps[e.p]]
    ensures Step(w, e).clock == w.clock && Step(w, e).due == w.due
  {
    match e
    case Snapshot(p) =>
    case Zrem(p, id, fault) =>
    case Get(p, fault) =>
    case Push(p, fault) =>
    case Restore(p, fault) =>
    case Die(p) =>
  }

  lemma SnapshotShifts(w: World, p: string, id: Id, at: Spot)
    requires w.TaskOf(p).Free? && OnlyAt(w, id, at)
    ensures OthersStay(w, Step(w, Snapshot(p)), id) && OnlyAt(Step(w, Snapshot(p)), id, at)
  {
    var w' := Step(w, Snapshot(p));
    assert forall q :: w'.TaskOf(q) == w.TaskOf(q);
  }

  lemma ZremStaysApart(w: World, e: Event)
    requires Enabled(w, e) && e.Zrem?
    ensures OthersStay(w, Step(w, e), e.id)
  { OtherPromotersStay(w, e); }

  lemma ZremShifts(w: World, e: Event, at: Spot)
    requires Enabled(w, e) && e.Zrem? && OnlyAt(w, e.id, at)
    ensures OthersStay(w, Step(w, e), e.id) && OnlyAt(Step(w, e), e.id, SpotAfter(w, e, at))
  {
    hide OthersStay;
    ZremStaysApart(w, e);
    OtherPromotersStay(w, e);
    assert !Claims(w, e.p, e.id) && w.TaskOf(e.p).Free?;
  }

  lemma GetShifts(w: World, e: Event, at: Spot)
    requires Enabled(w, e) && e.Get? && OnlyAt(w, IdOf(w, e), at)
    ensures OthersStay(w, Step(w, e), IdOf(w, e)) && OnlyAt(Step(w, e), IdOf(w, e), SpotAfter(w, e, at))
  {
    OtherPromotersStay(w, e);
    assert Claims(w, e.p, IdOf(w, e)) && at == Claimed(e.p);
  }

  lemma PushStaysApart(w: World, e: Event, id: Id)
    requires Enabled(w, e) && e.Push? && id == w.TaskOf(e.p).id
    ensures OthersStay(w, Step(w, e), id)
  {
    OtherPromotersStay(w, e);
    assert forall x :: x in [id] + w.queue <==> x == id || x in w.queue;
  }

  lemma PushShifts(w: World, e: Event, at: Spot)
    requires Enabled(w, e) && e.Push? && OnlyAt(w, IdOf(w, e), at)
    ensures OthersStay(w, Step(w, e), IdOf(w, e)) && OnlyAt(Step(w, e), IdOf(w, e), SpotAfter(w, e, at))
  {
    hide OthersStay;
    PushStaysApart(w, e, IdOf(w, e));
    OtherPromotersStay(w, e);
    assert Claims(w, e.p, IdOf(w, e)) && at == Claimed(e.p);
    PushQueue(w.queue, IdOf(w, e));
  }

  lemma RestoreStaysApart(w: World, e: Event, id: Id)
    requires Enabled(w, e) && e.Restore? && id == w.TaskOf(e.p).id
    ensures OthersStay(w, Step(w, e), id)
  {
    var w' := Step(w, e);
    OtherPromotersStay(w, e);
    assert w'.TaskOf(e.p).Free?;
    assert w'.queue == w.queue && w'.held == w.held && w'.live == w.live;
  }

  lemma RestoreStepShifts(w: World, e: Event, at: Spot)
    requires Enabled(w, e) && e.Restore? && !Breaks(w, e) && OnlyAt(w, IdOf(w, e), at)
    ensures OthersStay(w, Step(w, e), IdOf(w, e)) && OnlyAt(Step(w, e), IdOf(w, e), SpotAfter(w, e, at))
  {
    RestoreStaysApart(w, e, IdOf(w, e));
    OtherPromotersStay(w, e);
    assert Claims(w, e.p, IdOf(w, e)) <==> at == Claimed(e.p);
    if at.Claimed? { assert Claims(w, at.p, IdOf(w, e)) && at.p in w.sweeps; }
  }

  lemma DeathShifts(w: World, e: Event, at: Spot)
    requires Enabled(w, e) && e.Die? && !Breaks(w, e) && OnlyAt(w, IdOf(w, e), at)
    ensures OthersStay(w, Step(w, e), IdOf(w, e)) && OnlyAt(Step(w, e), IdOf(w, e), SpotAfter(w, e, at))
  {
    OtherPromotersStay(w, e);
    assert Claims(w, e.p, IdOf(w, e)) <==> at == Claimed(e.p);
    assert Step(w, e).TaskOf(e.p).Free?;
  }

  lemma StepSpotted(w: World, e: Event, spots: Spots)
    requires Spotted(w, spots) && Enabled(w, e) && !Breaks(w, e)
    ensures var id := IdOf(w, e); Spotted(Step(w, e), spots[id := SpotAfter(w, e, At(spots, id))])
  {
    var id := IdOf(w, e);
    var at := At(spots, id);
    if !ByPromoter(e) { WorkerStepShifts(w, e, at); }
    else if e.Snapshot? { SnapshotShifts(w, e.p, id, at); }
    else if e.Zrem? { ZremShifts(w, e, at); }
    else if e.Restore? { RestoreStepShifts(w, e, at); }
    else if e.Die? { DeathShifts(w, e, at); }
    else if e.Get? { GetShifts(w, e, at); }
    else { PushShifts(w, e, at); }
    Shift(w, Step(w, e), spots, id, SpotAfter(w, e, at));
  }

  lemma CountsAfter(w: World, e: Event, id: Id)
    requires Enabled(w, e)
    ensures var w' := Step(w, e);
      && w'.Pushes(id) == w.Pushes(id) + (if e.Push? && !e.fault && id == IdOf(w, e) then 1 else 0)
      && w'.Parks(id) == w.Parks(id) + (if e.Park? && id == e.id then 1 else 0)
      && (id in w'.live ==> id in w.live || (e.Submit? && id == e.id))
  {}

  lemma PushesCount(w: World, e: Event, spots: Spots, id: Id)
    requires Fits(w, spots) && Enabled(w, e) && !Breaks(w, e)
    ensures var w', at' := Step(w, e), At(spots[IdOf(w, e) := SpotAfter(w, e, At(spots, IdOf(w, e)))], id);
      && w'.Pushes(id) <= w'.Parks(id)
      && (id in w'.live ==> w'.Pushes(id) + (if at'.Parked? || at'.Claimed? then 1 else 0) == w'.Parks(id))
  {
    CountsAfter(w, e, id);
    hide Step;
    assert w.Pushes(id) <= w.Parks(id);
    if ByPromoter(e) { assert Claims(w, e.p, id) <==> At(spots, id) == Claimed(e.p); }
  }

  /** A promoter that comes to be about to push has been about to check that id, or to push it. */
  lemma CheckedWasClaimed(w: World, e: Event, p: string)
    requires Enabled(w, e) && Step(w, e).TaskOf(p).Checked?
    ensures Claims(w, p, Step(w, e).TaskOf(p).id)
    ensures if e.Get? && p == e.p then Step(w, e).TaskOf(p).id in w.live else Step(w, e).TaskOf(p) == w.TaskOf(p)
  {
    if ByPromoter(e) { OtherPromotersStay(w, e); } else { WorkersKeepSweeps(w, e); }
  }

  lemma CheckedIsOwed(w: World, e: Event, spots: Spots, p: string)
    requires Fits(w, spots) && Enabled(w, e) && Step(w, e).TaskOf(p).Checked?
    ensures var w' := Step(w, e); w'.Pushes(w'.TaskOf(p).id) < w'.Parks(w'.TaskOf(p).id)
  {
    var id := Step(w, e).TaskOf(p).id;
    hide Step, Enabled;
    CountsAfter(w, e, id);
    CheckedWasClaimed(w, e, p);
    assert At(spots, id) == Claimed(p);
    assert w.TaskOf(p).Checked? ==> w.Pushes(w.TaskOf(p).id) < w.Parks(w.TaskOf(p).id);
    if e.Push? {
      PushEnds(w, e);
      assert Claims(w, e.p, IdOf(w, e)) <==> At(spots, IdOf(w, e)) == Claimed(e.p);
    }
  }

  lemma PushEnds(w: World, e: Event)
    requires Enabled(w, e) && e.Push?
    ensures !Step(w, e).TaskOf(e.p).Checked? && Claims(w, e.p, IdOf(w, e))
  {}

  lemma StepFits(w: World, e: Event, spots: Spots)
    requires Fits(w, spots) && Enabled(w, e) && !Breaks(w, e)
    ensures Fits(Step(w, e), spots[IdOf(w, e) := SpotAfter(w, e, At(spots, IdOf(w, e)))])
  {
    var w' := Step(w, e);
    StepSpotted(w, e, spots);
    forall id { PushesCount(w, e, spots, id); }
    forall p | w'.TaskOf(p).Checked? ensures w'.Pushes(w'.TaskOf(p).id) < w'.Parks(w'.TaskOf(p).id) {
      CheckedIsOwed(w, e, spots, p);
    }
  }

  /** A live job that is in no queue, not parked, with no worker and in no promoter's hand. */
  ghost predicate Orphaned(w: World, id: Id) {
    id in w.live && id !in w.delayed && id !in w.queue && id !in w.held && forall p :: !Claims(w, p, id)
  }

  /** A job that is parked and somewhere else too. */
  ghost predicate Twice(w: World, id: Id) {
    id in w.delayed && (id in w.queue || id in w.held || exists p :: Claims(w, p, id))
  }

  lemma OnceAndSomewhere(w: World, id: Id)
    requires Inv(w)
    ensures !Orphaned(w, id) && !Twice(w, id)
  {
    var spots :| Fits(w, spots);
    if At(spots, id).Claimed? { assert Claims(w, At(spots, id).p, id); }
    if p :| Claims(w, p, id) { assert At(spots, id) == Claimed(p); }
  }

  /** No two promoters have it, and it is not where a promoter who has it took it from. */
  lemma ClaimedIsThere(w: World, p: string, id: Id)
    requires Inv(w) && Claims(w, p, id)
    ensures id !in w.delayed && id !in w.queue && id !in w.held && forall q :: Claims(w, q, id) ==> q == p
  {
    var spots :| Fits(w, spots);
    assert At(spots, id) == Claimed(p);
    forall q | Claims(w, q, id) ensures q == p { assert At(spots, id) == Claimed(q); }
  }

  lemma LosingBreaks(w: World, e: Event)
    requires Inv(w) && Enabled(w, e) && Breaks(w, e) && (e.Die? || e.fault)
    ensures Orphaned(Step(w, e), w.TaskOf(e.p).id)
  {
    var w', id := Step(w, e), w.TaskOf(e.p).id;
    ClaimedIsThere(w, e.p, id);
    OtherPromotersStay(w, e);
    assert w'.TaskOf(e.p).Free?;
    forall p ensures !Claims(w', p, id) {
      if p != e.p { assert w'.TaskOf(p) == w.TaskOf(p) && (Claims(w', p, id) <==> Claims(w, p, id)); }
    }
  }

  lemma DoublingBreaks(w: World, e: Event)
    requires Enabled(w, e) && Breaks(w, e) && e.Restore? && !e.fault
    ensures Twice(Step(w, e), w.TaskOf(e.p).id)
  {
    var w', id := Step(w, e), w.TaskOf(e.p).id;
    OtherPromotersStay(w, e);
    if q :| Claims(w, q, id) { assert q != e.p && Claims(w', q, id); }
  }

  lemma BreakBreaks(w: World, e: Event)
    requires Inv(w) && Enabled(w, e) && Breaks(w, e)
    ensures !Inv(Step(w, e))
  {
    hide Inv;
    if e.Die? || e.fault { LosingBreaks(w, e); } else { DoublingBreaks(w, e); }
    if Inv(Step(w, e)) { OnceAndSomewhere(Step(w, e), w.TaskOf(e.p).id); }
  }

  /** A command keeps every job in one spot exactly when it is not one of these three. */
  lemma StepKeepsInv(w: World, e: Event)
    requires Inv(w) && Enabled(w, e)
    ensures Inv(Step(w, e)) <==> !Breaks(w, e)
  {
    if Breaks(w, e) {
      BreakBreaks(w, e);
    } else {
      var spots :| Fits(w, spots);
      StepFits(w, e, spots);
    }
  }

  // ---- Never early ---------------------------------------------------------------------------

  predicate Early(w: World, e: Event) {
    e.Push? && !e.fault && w.TaskOf(e.p).Checked? && w.TaskOf(e.p).id in w.due && w.clock < w.due[w.TaskOf(e.p).id]
  }

  /** A worker parks a job again while some promoter still has it in its snapshot or in hand. */
  ghost predicate StalePark(w: World, e: Event) {
    e.Park? && exists p :: w.SweepOf(p).On? && (e.id in w.SweepOf(p).pending || (!w.TaskOf(p).Free? && w.TaskOf(p).id == e.id))
  }

  predicate ParkedOnTime(w: World) {
    forall id :: id in w.delayed ==> id in w.due && (w.due[id] <= w.delayed[id] || w.due[id] <= w.clock)
  }

  predicate SweepOnTime(w: World, s: Sweep) {
    s.On? ==>
      && s.now <= w.clock
      && (forall id :: id in s.pending ==> id in w.due && w.due[id] <= s.now)
      && (!s.task.Free? ==> s.task.id in w.due && w.due[s.task.id] <= s.now)
  }

  ghost predicate OnTime(w: World) {
    && ParkedOnTime(w)
    && (forall p :: SweepOnTime(w, w.SweepOf(p)))
  }

  lemma WorkerStepOnTime(w: World, e: Event)
    requires OnTime(w) && Enabled(w, e) && !StalePark(w, e) && !ByPromoter(e)
    ensures OnTime(Step(w, e))
  {
    var w' := Step(w, e);
    forall p ensures SweepOnTime(w', w'.SweepOf(p)) {
      assert w'.SweepOf(p) == w.SweepOf(p);
      assert SweepOnTime(w, w.SweepOf(p));
    }
  }

  lemma SnapshotOnTime(w: World, p: string)
    requires ParkedOnTime(w) && Enabled(w, Snapshot(p))
    ensures var w' := Step(w, Snapshot(p)); SweepOnTime(w', w'.SweepOf(p)) && ParkedOnTime(w')
  {}

  lemma ZremOnTime(w: World, p: string, id: Id, fault: bool)
    requires ParkedOnTime(w) && Enabled(w, Zrem(p, id, fault)) && SweepOnTime(w, w.SweepOf(p))
    ensures var w' := Step(w, Zrem(p, id, fault)); SweepOnTime(w', w'.SweepOf(p)) && ParkedOnTime(w')
  {}

  lemma RestoreOnTime(w: World, p: string, fault: bool)
    requires ParkedOnTime(w) && Enabled(w, Restore(p, fault)) && SweepOnTime(w, w.SweepOf(p))
    ensures var w' := Step(w, Restore(p, fault)); SweepOnTime(w', w'.SweepOf(p)) && ParkedOnTime(w')
  {}

  lemma OwnSweepOnTime(w: World, e: Event)
    requires ParkedOnTime(w) && Enabled(w, e) && ByPromoter(e) && SweepOnTime(w, w.SweepOf(e.p))
    ensures SweepOnTime(Step(w, e), Step(w, e).SweepOf(e.p)) && ParkedOnTime(Step(w, e)) && !Early(w, e)
  {
    match e
    case Snapshot(p) => SnapshotOnTime(w, p); hide Step;
    case Zrem(p, id, fault) => ZremOnTime(w, p, id, fault); hide Step;
    case Get(p, fault) =>
    case Push(p, fault) =>
    case Restore(p, fault) => RestoreOnTime(w, p, fault); hide Step;
    case Die(p) =>
  }

  lemma PromoterStepOnTime(w: World, e: Event)
    requires OnTime(w) && Enabled(w, e) && ByPromoter(e)
    ensures OnTime(Step(w, e)) && !Early(w, e)
  {
    var w' := Step(w, e);
    OwnSweepOnTime(w, e);
    OtherPromotersStay(w, e);
    forall p | p != e.p ensures SweepOnTime(w', w'.SweepOf(p)) {
      assert SweepOnTime(w, w.SweepOf(p));
    }
  }

  lemma StepOnTime(w: World, e: Event)
    requires OnTime(w) && Enabled(w, e) && !StalePark(w, e)
    ensures OnTime(Step(w, e)) && !Early(w, e)
  {
    if ByPromoter(e) { PromoterStepOnTime(w, e); } else { WorkerStepOnTime(w, e); }
  }

  // ---- Runs ----------------------------------------------------------------------------------

  const START := World(0, map[], [], {}, {}, map[], map[], map[], map[])

  function Run(w: World, es: seq<Event>): World
    decreases |es|
  { if es == [] then w else Step(Run(w, es[..|es| - 1]), es[|es| - 1]) }

  ghost predicate Legal(w: World, es: seq<Event>)
    decreases |es|
  {
    es == [] ||
    var front, e := es[..|es| - 1], es[|es| - 1];
    Legal(w, front) && Enabled(Run(w, front), e) && !Breaks(Run(w, front), e)
  }

  ghost predicate Prompt(w: World, es: seq<Event>)
    decreases |es|
  {
    es == [] || (Prompt(w, es[..|es| - 1]) && !StalePark(Run(w, es[..|es| - 1]), es[|es| - 1]))
  }

  ghost predicate SomePushEarly(w: World, es: seq<Event>)
    decreases |es|
  {
    es != [] && (SomePushEarly(w, es[..|es| - 1]) || Early(Run(w, es[..|es| - 1]), es[|es| - 1]))
  }

  /** In every run without those breaks each live job is in one spot, and has been pushed once
      for every parking, or once less while it is parked or in a promoter's hand. If moreover no
      worker re-parks a job that a running sweep has seen, no push comes before its time. */
  lemma {:induction false} PromotedOnceAndOnTime(es: seq<Event>)
    requires Legal(START, es)
    ensures Inv(Run(START, es))
    ensures Prompt(START, es) ==> OnTime(Run(START, es)) && !SomePushEarly(START, es)
    decreases |es|
  {
    if es == [] {
      assert Fits(START, map[]);
    } else {
      var front, e := es[..|es| - 1], es[|es| - 1];
      PromotedOnceAndOnTime(front);
      StepKeepsInv(Run(START, front), e);
      if Prompt(START, es) { StepOnTime(Run(START, front), e); }
    }
  }

  /** What that says of one job: a live one is parked, queued, with a worker or in the hand of one
      promoter, and in just one of these; no parking is pushed twice; and each one has been pushed,
      unless it is the one the job is still parked or claimed by. */
  lemma EachParkingIsPushedOnce(es: seq<Event>, id: Id)
    requires Legal(START, es)
    ensures var w := Run(START, es);
      var claimed := exists p :: Claims(w, p, id);
      && w.Pushes(id) <= w.Parks(id) && NoDup(w.queue)
      && (forall p, q :: Claims(w, p, id) && Claims(w, q, id) ==> p == q)
      && (id in w.live ==> w.Parks(id) == w.Pushes(id) + if id in w.delayed || claimed then 1 else 0)
      && (id in w.live ==> id in w.delayed || id in w.queue || id in w.held || claimed)
      && !(id in w.delayed && id in w.queue) && !(id in w.delayed && id in w.held) && !(id in w.queue && id in w.held)
      && (claimed ==> id !in w.delayed && id !in w.queue && id !in w.held)
  {
    PromotedOnceAndOnTime(es);
    var w := Run(START, es);
    var spots :| Fits(w, spots);
    if At(spots, id).Claimed? { assert Claims(w, At(spots, id).p, id); }
    if p :| Claims(w, p, id) { assert At(spots, id) == Claimed(p); }
  }

  // ---- What makes a push early ---------------------------------------------------------------

  /** Every sweep's clock is a past one. */
  ghost predicate Clocks(w: World) {
    0 <= w.clock && forall p :: w.SweepOf(p).On? ==> 0 <= w.SweepOf(p).now <= w.clock
  }

  lemma OwnClockStays(w: World, e: Event)
    requires Clocks(w) && Enabled(w, e) && ByPromoter(e)
    ensures var s := Step(w, e).SweepOf(e.p); s.On? ==> 0 <= s.now <= w.clock
  {
    match e
    case Snapshot(p) =>
    case Zrem(p, id, fault) =>
    case Get(p, fault) =>
    case Push(p, fault) =>
    case Restore(p, fault) =>
    case Die(p) =>
  }

  lemma WorkersKeepSweeps(w: World, e: Event)
    requires Enabled(w, e) && !ByPromoter(e)
    ensures Step(w, e).sweeps == w.sweeps && w.clock <= Step(w, e).clock
  {}

  lemma ClocksStay(w: World, e: Event)
    requires Clocks(w) && Enabled(w, e)
    ensures Clocks(Step(w, e))
  {
    var w' := Step(w, e);
    if ByPromoter(e) {
      OtherPromotersStay(w, e);
      OwnClockStays(w, e);
    } else {
      WorkersKeepSweeps(w, e);
      assert forall p :: w'.SweepOf(p) == w.SweepOf(p);
    }
  }

  lemma {:induction false} RunsHaveClocks(es: seq<Event>)
    requires Legal(START, es)
    ensures Clocks(Run(START, es))
    decreases |es|
  {
    if es != [] {
      RunsHaveClocks(es[..|es| - 1]);
      ClocksStay(Run(START, es[..|es| - 1]), es[|es| - 1]);
    }
  }

  /** From w, some continuation in which nothing breaks and no job is parked under a running sweep
      pushes a job before its time. */
  ghost predicate MayPushEarly(w: World) {
    exists more :: Legal(w, more) && Prompt(w, more) && SomePushEarly(w, more)
  }

  lemma {:induction false} OnTimeStaysOnTime(w: World, more: seq<Event>)
    requires OnTime(w) && Legal(w, more) && Prompt(w, more)
    ensures OnTime(Run(w, more)) && !SomePushEarly(w, more)
    decreases |more|
  {
    if more != [] {
      var front, e := more[..|more| - 1], more[|more| - 1];
      OnTimeStaysOnTime(w, front);
      StepOnTime(Run(w, front), e);
    }
  }

  lemma {:induction false} Prepend(w: World, e: Event, more: seq<Event>)
    requires Enabled(w, e) && !Breaks(w, e) && !StalePark(w, e) && Legal(Step(w, e), more) && Prompt(Step(w, e), more)
    ensures Legal(w, [e] + more) && Prompt(w, [e] + more) && Run(w, [e] + more) == Run(Step(w, e), more)
    ensures SomePushEarly(Step(w, e), more) || Early(w, e) ==> SomePushEarly(w, [e] + more)
    decreases |more|
  {
    if more == [] {
      assert [e] + more == [e] && [e][..0] == [];
      assert Run(w, [e]) == Step(Run(w, []), e);
    } else {
      var n := |more| - 1;
      Prepend(w, e, more[..n]);
      assert ([e] + more)[..n + 1] == [e] + more[..n];
    }
  }

  lemma FirstThen(w: World, e: Event)
    requires Enabled(w, e) && !Breaks(w, e) && !StalePark(w, e) && (Early(w, e) || MayPushEarly(Step(w, e)))
    ensures MayPushEarly(w)
  {
    var more :| Legal(Step(w, e), more) && Prompt(Step(w, e), more) && (Early(w, e) || SomePushEarly(Step(w, e), more));
    Prepend(w, e, more);
  }

  /** The id is live and parked until some time to come. */
  predicate NotDue(w: World, id: Id) {
    id in w.live && id in w.delayed && id in w.due && w.clock < w.due[id]
  }

  /** Without faults a promoter moves a live job of its snapshot that is still parked to the end of the
      queue. */
  lemma ThreeCommandsPush(w: World, p: string, id: Id)
    requires w.SweepOf(p).On? && w.TaskOf(p).Free? && id in w.SweepOf(p).pending && id in w.delayed && id in w.live
    ensures var w' := Step(Step(Step(w, Zrem(p, id, false)), Get(p, false)), Push(p, false));
      w'.queue == [id] + w.queue && w'.delayed == w.delayed - {id} && w'.TaskOf(p).Free?
  {
    var w1 := Step(w, Zrem(p, id, false));
    assert w1.TaskOf(p) == Removed(id) && w1.live == w.live && w1.queue == w.queue && w1.delayed == w.delayed - {id};
    var w2 := Step(w1, Get(p, false));
    assert w2.TaskOf(p) == Checked(id) && w2.queue == w.queue && w2.delayed == w1.delayed;
  }

  /** A sweep sees exactly the jobs parked until now or before. */
  lemma DueJobsArePushed(w: World, p: string, id: Id)
    requires w.TaskOf(p).Free? && id in w.delayed && id in w.live
    ensures var w1 := Step(w, Snapshot(p));
      && (id in w1.SweepOf(p).pending <==> 0 <= w.delayed[id] <= w.clock)
      && (id in w1.SweepOf(p).pending ==>
            var w' := Step(Step(Step(w1, Zrem(p, id, false)), Get(p, false)), Push(p, false));
            w'.queue == [id] + w.queue && w'.delayed == w.delayed - {id} && w'.TaskOf(p).Free?)
  {
    var w1 := Step(w, Snapshot(p));
    assert w1.SweepOf(p) == On(w.clock, (set x | x in w.delayed && 0 <= w.delayed[x] <= w.clock), Free);
    if id in w1.SweepOf(p).pending { ThreeCommandsPush(w1, p, id); }
    hide Step;
  }

  /** A free promoter that has it in its snapshot takes it out and pushes it. */
  lemma SeenIsPushed(w: World, p: string, id: Id)
    requires NotDue(w, id) && w.SweepOf(p).On? && w.TaskOf(p).Free? && id in w.SweepOf(p).pending
    ensures MayPushEarly(w)
  {
    var w1 := Step(w, Zrem(p, id, false));
    var w2 := Step(w1, Get(p, false));
    assert w1.TaskOf(p) == Removed(id) && w2.TaskOf(p) == Checked(id);
    assert Legal(Step(w2, Push(p, false)), []) && Prompt(Step(w2, Push(p, false)), []);
    FirstThen(w2, Push(p, false));
    FirstThen(w1, Get(p, false));
    FirstThen(w, Zrem(p, id, false));
  }

  /** A promoter that is busy with another id first finishes that. */
  lemma BusyThenPushes(w: World, p: string, id: Id)
    requires NotDue(w, id) && w.SweepOf(p).On? && id in w.SweepOf(p).pending && !w.TaskOf(p).Free? && w.TaskOf(p).id != id
    ensures MayPushEarly(w)
  {
    match w.TaskOf(p)
    case Undoing(x, mine) =>
      SeenIsPushed(Step(w, Restore(p, !mine)), p, id);
      FirstThen(w, Restore(p, !mine));
    case Checked(x) =>
      SeenIsPushed(Step(w, Push(p, false)), p, id);
      FirstThen(w, Push(p, false));
    case Removed(x) =>
      var w1 := Step(w, Get(p, false));
      if w1.TaskOf(p).Free? {
        SeenIsPushed(w1, p, id);
      } else {
        SeenIsPushed(Step(w1, Push(p, false)), p, id);
        FirstThen(w1, Push(p, false));
      }
      FirstThen(w, Get(p, false));
  }

  /** A promoter that is about to put this very id back does so, and then takes a new snapshot, in
      which the id is already due. */
  lemma UndoneIsPushed(w: World, p: string, id: Id)
    requires NotDue(w, id) && Clocks(w) && w.SweepOf(p).On? && w.TaskOf(p) == Undoing(id, false)
    ensures MayPushEarly(w)
  {
    var w1 := Step(w, Restore(p, false));
    var w2 := Step(w1, Snapshot(p));
    assert w1.delayed[id] == w.SweepOf(p).now && w1.TaskOf(p).Free?;
    SeenIsPushed(w2, p, id);
    FirstThen(w1, Snapshot(p));
    FirstThen(w, Restore(p, false));
  }

  lemma StaleParkIsPushed(w: World, e: Event)
    requires Inv(w) && Clocks(w) && Enabled(w, e) && StalePark(w, e)
    ensures MayPushEarly(Step(w, e))
  {
    var w', id := Step(w, e), e.id;
    var p :| w.SweepOf(p).On? && (id in w.SweepOf(p).pending || (!w.TaskOf(p).Free? && w.TaskOf(p).id == id));
    ClocksStay(w, e);
    assert w'.SweepOf(p) == w.SweepOf(p) && NotDue(w', id);
    var spots :| Fits(w, spots);
    assert At(spots, id) == Held && !Claims(w, p, id) by { assert Claims(w, p, id) <==> At(spots, id) == Claimed(p); }
    if w.TaskOf(p).Free? {
      SeenIsPushed(w', p, id);
    } else if w.TaskOf(p).id == id {
      UndoneIsPushed(w', p, id);
    } else {
      BusyThenPushes(w', p, id);
    }
  }

  /** Parking a job that a running sweep has in its snapshot or in hand is exactly what makes an
      early push possible: before such a step none can come, after it one can, with no further
      step of that kind, no fault that breaks anything and no time passing. */
  lemma StaleParksAreTheCause(w: World, e: Event)
    requires Inv(w) && OnTime(w) && Clocks(w) && Enabled(w, e)
    ensures MayPushEarly(Step(w, e)) <==> StalePark(w, e)
    ensures !Early(w, e)
  {
    if ByPromoter(e) { PromoterStepOnTime(w, e); }
    if StalePark(w, e) {
      StaleParkIsPushed(w, e);
    } else {
      StepOnTime(w, e);
      forall more | Legal(Step(w, e), more) && Prompt(Step(w, e), more) ensures !SomePushEarly(Step(w, e), more) {
        OnTimeStaysOnTime(Step(w, e), more);
      }
    }
  }

  /** The same of every run from the start that has been prompt so far. */
  lemma PunctualUntilAStalePark(es: seq<Event>, e: Event)
    requires Legal(START, es) && Prompt(START, es) && Enabled(Run(START, es), e)
    ensures !SomePushEarly(START, es)
    ensures MayPushEarly(Step(Run(START, es), e)) <==> StalePark(Run(START, es), e)
  {
    PromotedOnceAndOnTime(es);
    RunsHaveClocks(es);
    StaleParksAreTheCause(Run(START, es), e);
  }

  // ---- The races -----------------------------------------------------------------------------

  lemma Extend(es: seq<Event>, e: Event)
    requires Legal(START, es) && Enabled(Run(START, es), e) && !Breaks(Run(START, es), e)
    ensures Legal(START, es + [e]) && Run(START, es + [e]) == Step(Run(START, es), e)
    ensures SomePushEarly(START, es + [e]) <==> SomePushEarly(START, es) || Early(Run(START, es), e)
  {
    assert (es + [e])[..|es + [e]| - 1] == es;
  }

  /** Promoters A and B took the same snapshot at time 10, and B has already promoted the job. */
  const RACED := World(10, map[], ["j"], {}, {"j"}, map["A" := On(10, {"j"}, Free), "B" := On(10, {}, Free)],
                       map["j" := 10], map["j" := 1], map["j" := 1])

  lemma ParkedUntilTen() returns (es: seq<Event>)
    ensures Legal(START, es)
    ensures Run(START, es) == World(10, map["j" := 10], [], {}, {"j"}, map[], map["j" := 10], map["j" := 1], map[])
  {
    Extend([], Submit("j"));
    es := [] + [Submit("j")];
    assert Run(START, es) == World(0, map[], ["j"], {}, {"j"}, map[], map[], map[], map[]);
    Extend(es, Take("j"));
    es := es + [Take("j")];
    assert Run(START, es) == World(0, map[], [], {"j"}, {"j"}, map[], map[], map[], map[]);
    Extend(es, Park("j", 10));
    es := es + [Park("j", 10)];
    Extend(es, Tick(10));
    es := es + [Tick(10)];
  }

  lemma ParkedAndSeen() returns (es: seq<Event>)
    ensures Legal(START, es)
    ensures Run(START, es) == World(10, map["j" := 10], [], {}, {"j"},
              map["A" := On(10, {"j"}, Free), "B" := On(10, {"j"}, Free)], map["j" := 10], map["j" := 1], map[])
  {
    es := ParkedUntilTen();
    var due := set id | id in map["j" := 10] && 0 <= map["j" := 10][id] <= 10;
    assert due == {"j"};
    Extend(es, Snapshot("A"));
    es := es + [Snapshot("A")];
    Extend(es, Snapshot("B"));
    es := es + [Snapshot("B")];
  }

  lemma Removal() returns (es: seq<Event>)
    ensures Legal(START, es)
    ensures Run(START, es) == World(10, map[], [], {}, {"j"},
      map["A" := On(10, {"j"}, Free), "B" := On(10, {}, Removed("j"))], map["j" := 10], map["j" := 1], map[])
  {
    es := ParkedAndSeen();
    Extend(es, Zrem("B", "j", false));
    es := es + [Zrem("B", "j", false)];
    assert map["j" := 10] - {"j"} == map[] && {"j"} - {"j"} == {};
  }

  lemma Race() returns (es: seq<Event>)
    ensures Legal(START, es) && Run(START, es) == RACED
  {
    es := Removal();
    Extend(es, Get("B", false));
    es := es + [Get("B", false)];
    Extend(es, Push("B", false));
    es := es + [Push("B", false)];
  }

  /** A's ZREM faults on the id B promoted; A's catch block parks it again: the job is twice over. */
  lemma FaultDuplicates() returns (es: seq<Event>, e: Event)
    ensures Legal(START, es) && Enabled(Run(START, es), e) && Breaks(Run(START, es), e)
    ensures var w := Step(Run(START, es), e); "j" in w.live && "j" in w.queue && "j" in w.delayed
  {
    es := Race();
    Extend(es, Zrem("A", "j", true));
    es := es + [Zrem("A", "j", true)];
    e := Restore("A", false);
  }

  /** B has taken the id out; its GET faults, and so does the ZADD that should put it back. */
  lemma AFaultyUndoOrphans() returns (es: seq<Event>, e: Event)
    ensures Legal(START, es) && Enabled(Run(START, es), e) && Breaks(Run(START, es), e) && e.Restore? && e.fault
    ensures Orphaned(Step(Run(START, es), e), "j")
  {
    es := Removal();
    Extend(es, Get("B", true));
    es := es + [Get("B", true)];
    e := Restore("B", true);
    OrphanedAfter(Run(START, es), e);
  }

  /** B has taken the id out and dies. */
  lemma ADeathOrphans() returns (es: seq<Event>, e: Event)
    ensures Legal(START, es) && Enabled(Run(START, es), e) && Breaks(Run(START, es), e) && e.Die?
    ensures Orphaned(Step(Run(START, es), e), "j")
  {
    es := Removal();
    e := Die("B");
    OrphanedAfter(Run(START, es), e);
  }

  lemma OrphanedAfter(w: World, e: Event)
    requires w.live == {"j"} && w.queue == [] && w.held == {} && "j" !in w.delayed && Enabled(w, e)
    requires w.sweeps.Keys == {"A", "B"} && w.TaskOf("A").Free? && (e == Restore("B", true) || e == Die("B"))
    ensures Orphaned(Step(w, e), "j")
  {
    OtherPromotersStay(w, e);
    forall p ensures !Claims(Step(w, e), p, "j") {}
  }

  lemma Reparked() returns (es: seq<Event>)
    ensures Legal(START, es)
    ensures Run(START, es) == World(10, map["j" := 30], [], {}, {"j"},
      map["A" := On(10, {"j"}, Free), "B" := On(10, {}, Free)], map["j" := 30], map["j" := 2], map["j" := 1])
  {
    es := Race();
    Extend(es, Take("j"));
    es := es + [Take("j")];
    assert Run(START, es) == RACED.(queue := [], held := {"j"});
    Extend(es, Park("j", 20));
    es := es + [Park("j", 20)];
    assert {"j"} - {"j"} == {} && map[][("j") := 30] == map["j" := 30];
  }

  /** B's promotion is picked, fails, and is parked until 30; A, still at its old snapshot, takes it
      out and pushes it at once. No command faults. */
  lemma StaleSnapshotPushesEarly() returns (es: seq<Event>)
    ensures Legal(START, es) && SomePushEarly(START, es)
  {
    es := Reparked();
    Extend(es, Zrem("A", "j", false));
    es := es + [Zrem("A", "j", false)];
    Extend(es, Get("A", false));
    es := es + [Get("A", false)];
    Extend(es, Push("A", false));
    es := es + [Push("A", false)];
  }
}
