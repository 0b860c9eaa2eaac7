/** Idempotency keys: the first request with a key runs, later ones replay its response. Requests
    race command by command over the cache, whose entries and locks expire; any command may fault,
    and a request may die at any point. */
module Idempotency {
  import opened Wrappers

  type Key = string
  type Hash = string
  type Req = nat

  datatype Config = Config(ttl: nat, lockTtl: nat, maxResponse: nat)

  datatype Response = Response(status: int, body: string)

  datatype Entry = Entry(hash: Hash, response: Response, expires: int)

  /** The lock's value is only `owner`, the body hash; `taker` is which request set it. */
  datatype Lock = Lock(owner: Hash, expires: int, taker: Req)

  datatype Answer = Replay(response: Response) | Conflict | InProgress | Own(response: Response)

  /** began: when the lock was won. clear: whether no entry was live at that moment. */
  datatype Phase =
    | Arrived
    | Missed
    | Refused
    | Handling(began: int, clear: bool)
    | Leaving(began: int, clear: bool, response: Response)
    | Releasing(began: int, clear: bool, response: Response)
    | Answered(answer: Answer)
    | Dead

  datatype Request = Request(key: Key, hash: Hash, phase: Phase)

  datatype Ran = Ran(key: Key, hash: Hash, response: Response)

  datatype Stored = Stored(key: Key, began: int, clear: bool, at: int)

  datatype World = World(clock: int, entries: map<Key, Entry>, locks: map<Key, Lock>, reqs: map<Req, Request>,
                         ran: seq<Ran>, stores: seq<Stored>)
  {
    /** GET: an expired entry is no entry. */
    function Read(k: Key): Option<Entry> {
      if k in entries && clock < entries[k].expires then Some(entries[k]) else None
    }
    predicate Taken(k: Key) { k in locks && clock < locks[k].expires }
    function PhaseOf(r: Req): Phase { if r in reqs then reqs[r].phase else Dead }
    function To(r: Req, p: Phase): World
      requires r in reqs
    { this.(reqs := reqs[r := reqs[r].(phase := p)]) }
  }

  predicate Cacheable(c: Config, x: Response) { 200 <= x.status < 300 && |x.body| <= c.maxResponse }

  predicate Active(p: Phase) { p.Handling? || p.Leaving? || p.Releasing? }

  datatype Event =
    | Tick(seconds: nat)
    | Arrive(r: Req, key: Key, hash: Hash)
    | Get(r: Req, fault: bool)
    | SetNx(r: Req, fault: bool)
    | GetAgain(r: Req, fault: bool)
    | Finish(r: Req, response: Response)
    | Store(r: Req, fault: bool)
    | Release(r: Req, fault: bool)
    | Die(r: Req)

  predicate Enabled(w: World, e: Event) {
    match e
    case Tick(_) => true
    case Arrive(r, _, _) => r !in w.reqs
    case Get(r, _) => w.PhaseOf(r).Arrived?
    case SetNx(r, _) => w.PhaseOf(r).Missed?
    case GetAgain(r, _) => w.PhaseOf(r).Refused?
    case Finish(r, _) => w.PhaseOf(r).Handling?
    case Store(r, _) => w.PhaseOf(r).Leaving?
    case Release(r, _) => w.PhaseOf(r).Releasing?
    case Die(r) => r in w.reqs && !w.PhaseOf(r).Answered?
  }

  /** A found entry settles the request, one way or the other. */
  function Verdict(x: Entry, hash: Hash): Answer { if x.hash != hash then Conflict else Replay(x.response) }

  function Settled(x: Entry, hash: Hash): Phase { Answered(Verdict(x, hash)) }

  /** What a read that may fault leads to. */
  function AfterRead(w: World, r: Req, fault: bool, miss: Phase): Phase
    requires r in w.reqs
  {
    var x := w.Read(w.reqs[r].key);
    if fault || x.None? then miss else Settled(x.value, w.reqs[r].hash)
  }

  function Step(c: Config, w: World, e: Event): World {
    if !Enabled(w, e) then w else
    match e
    case Tick(s) => w.(clock := w.clock + s)
    case Arrive(r, k, h) => w.(reqs := w.reqs[r := Request(k, h, Arrived)])
    case Get(r, fault) => w.To(r, AfterRead(w, r, fault, Missed))
    case SetNx(r, fault) =>
      var q := w.reqs[r];
      if fault || w.Taken(q.key) then w.To(r, Refused)
      else w.To(r, Handling(w.clock, w.Read(q.key).None?))
            .(locks := w.locks[q.key := Lock(q.hash, w.clock + c.lockTtl, r)])
    case GetAgain(r, fault) => w.To(r, AfterRead(w, r, fault, Answered(InProgress)))
    case Finish(r, x) =>
      var q := w.reqs[r];
      w.To(r, Leaving(q.phase.began, q.phase.clear, x)).(ran := w.ran + [Ran(q.key, q.hash, x)])
    case Store(r, fault) =>
      var q := w.reqs[r];
      var p := q.phase;
      var w' := w.To(r, Releasing(p.began, p.clear, p.response));
      if fault || !Cacheable(c, p.response) then w'
      else w'.(entries := w.entries[q.key := Entry(q.hash, p.response, w.clock + c.ttl)],
               stores := w.stores + [Stored(q.key, p.began, p.clear, w.clock)])
    case Release(r, fault) =>
      var q := w.reqs[r];
      var w' := w.To(r, Answered(Own(q.phase.response)));
      if !fault && w.Taken(q.key) && w.locks[q.key].owner == q.hash then w'.(locks := w.locks - {q.key}) else w'
    case Die(r) => w.To(r, Dead)
  }

  function Run(c: Config, w: World, es: seq<Event>): World
    decreases |es|
  { if es == [] then w else Step(c, Run(c, w, es[..|es| - 1]), es[|es| - 1]) }

  const START := World(0, map[], map[], map[], [], [])

  // ---- One handler at a time -----------------------------------------------------------------

  ghost predicate Holds(c: Config, w: World, r: Req) {
    && r in w.reqs && Active(w.reqs[r].phase)
    && var q := w.reqs[r];
       q.key in w.locks && w.locks[q.key] == Lock(q.hash, q.phase.began + c.lockTtl, r)
       && w.clock < w.locks[q.key].expires
  }

  /** Every request inside has its own lock, still live. */
  ghost predicate Locked(c: Config, w: World) {
    forall r :: r in w.reqs && Active(w.reqs[r].phase) ==> Holds(c, w, r)
  }

  /** Time passes the lock deadline of a request that is still inside. */
  predicate Outlives(c: Config, w: World, e: Event) {
    e.Tick? && exists r :: r in w.reqs && Active(w.reqs[r].phase) && w.clock + e.seconds >= w.reqs[r].phase.began + c.lockTtl
  }

  lemma TimeKeepsLocks(c: Config, w: World, seconds: nat)
    requires Locked(c, w)
    ensures var e := Tick(seconds); Locked(c, Step(c, w, e)) <==> !Outlives(c, w, e)
  {
    var w', e := w.(clock := w.clock + seconds), Tick(seconds);
    if r :| r in w.reqs && Active(w.reqs[r].phase) && w'.clock >= w.reqs[r].phase.began + c.lockTtl {
      assert Holds(c, w, r) && !Holds(c, w', r);
    } else {
      forall r | r in w'.reqs && Active(w'.reqs[r].phase) ensures Holds(c, w', r) { assert Holds(c, w, r); }
    }
  }

  lemma CommandKeepsLocks(c: Config, w: World, e: Event)
    requires c.lockTtl > 0 && Locked(c, w) && Enabled(w, e) && !e.Tick?
    ensures Locked(c, Step(c, w, e))
  {
    var w' := Step(c, w, e);
    forall r | r in w'.reqs && Active(w'.reqs[r].phase) ensures Holds(c, w', r) {
      if Active(w.PhaseOf(r)) {
        assert Holds(c, w, r);
        if e.Release? { assert Holds(c, w, e.r); }
      }
    }
  }

  /** Whatever the interleaving, the faults and the deaths, the locks protect exactly until a
      request outlives its lock. */
  lemma StepKeepsLocks(c: Config, w: World, e: Event)
    requires c.lockTtl > 0 && Locked(c, w)
    ensures Locked(c, Step(c, w, e)) <==> !Outlives(c, w, e)
  {
    if e.Tick? { TimeKeepsLocks(c, w, e.seconds); } else if Enabled(w, e) { CommandKeepsLocks(c, w, e); }
  }

  ghost predicate Legal(c: Config, w: World, es: seq<Event>)
    decreases |es|
  {
    es == [] || (Legal(c, w, es[..|es| - 1]) && !Outlives(c, Run(c, w, es[..|es| - 1]), es[|es| - 1]))
  }

  lemma {:induction false} RunKeepsLocks(c: Config, es: seq<Event>)
    requires c.lockTtl > 0 && Legal(c, START, es)
    ensures Locked(c, Run(c, START, es))
    decreases |es|
  {
    if es != [] {
      RunKeepsLocks(c, es[..|es| - 1]);
      StepKeepsLocks(c, Run(c, START, es[..|es| - 1]), es[|es| - 1]);
    }
  }

  /** While no handler outlives its lock, at most one request per key is inside. */
  lemma OneInside(c: Config, es: seq<Event>, r: Req, s: Req)
    requires c.lockTtl > 0 && Legal(c, START, es)
    requires var w := Run(c, START, es);
      Active(w.PhaseOf(r)) && Active(w.PhaseOf(s)) && w.reqs[r].key == w.reqs[s].key
    ensures r == s
  {
    RunKeepsLocks(c, es);
    var w := Run(c, START, es);
    assert Holds(c, w, r) && Holds(c, w, s);
  }

  /** From w, some continuation in which no handler outlives its lock has two requests of one key
      inside. */
  ghost predicate MayHaveTwoInside(c: Config, w: World) {
    exists es, r, s :: Legal(c, w, es) && TwoInside(Run(c, w, es), r, s)
  }

  predicate TwoInside(w: World, r: Req, s: Req) {
    r != s && Active(w.PhaseOf(r)) && Active(w.PhaseOf(s)) && w.reqs[r].key == w.reqs[s].key
  }

  lemma {:induction false} LockedStays(c: Config, w: World, es: seq<Event>)
    requires c.lockTtl > 0 && Locked(c, w) && Legal(c, w, es)
    ensures Locked(c, Run(c, w, es))
    decreases |es|
  {
    if es != [] {
      LockedStays(c, w, es[..|es| - 1]);
      StepKeepsLocks(c, Run(c, w, es[..|es| - 1]), es[|es| - 1]);
    }
  }

  lemma NotTwo(c: Config, w: World, r: Req, s: Req)
    requires Locked(c, w)
    ensures !TwoInside(w, r, s)
  { assert Active(w.PhaseOf(r)) && Active(w.PhaseOf(s)) ==> Holds(c, w, r) && Holds(c, w, s); }

  lemma {:induction false} Later(reqs: set<Req>) returns (n: Req)
    ensures forall r :: r in reqs ==> r < n
  {
    n := 0;
    if reqs != {} {
      var r :| r in reqs;
      var m := Later(reqs - {r});
      n := if r < m then m else r + 1;
      assert forall s :: s in reqs ==> s == r || s in reqs - {r};
    }
  }

  lemma Onward(c: Config, w: World, es: seq<Event>, e: Event)
    requires Legal(c, w, es) && !e.Tick?
    ensures Legal(c, w, es + [e]) && Run(c, w, es + [e]) == Step(c, Run(c, w, es), e)
  { assert (es + [e])[..|es|] == es; }

  /** A newcomer of the same key wins the lock that has run out. */
  lemma TheNextComesIn(c: Config, w: World, r: Req)
    requires Active(w.PhaseOf(r)) && !w.Taken(w.reqs[r].key)
    ensures MayHaveTwoInside(c, w)
  {
    var k := w.reqs[r].key;
    var s := Later(w.reqs.Keys);
    ANewcomerWins(c, w, r, s);
    hide Step, TwoInside;
    var es := [] + [Arrive(s, k, "")];
    Onward(c, w, [], Arrive(s, k, ""));
    Onward(c, w, es, Get(s, true));
    Onward(c, w, es + [Get(s, true)], SetNx(s, false));
    assert TwoInside(Run(c, w, es + [Get(s, true)] + [SetNx(s, false)]), r, s);
  }

  lemma ANewcomerWins(c: Config, w: World, r: Req, s: Req)
    requires Active(w.PhaseOf(r)) && !w.Taken(w.reqs[r].key) && s !in w.reqs
    ensures TwoInside(Step(c, Step(c, Step(c, w, Arrive(s, w.reqs[r].key, "")), Get(s, true)), SetNx(s, false)), r, s)
  {
    var k := w.reqs[r].key;
    assert Step(c, w, Arrive(s, k, "")) == w.(reqs := w.reqs[s := Request(k, "", Arrived)]);
    assert Step(c, Step(c, w, Arrive(s, k, "")), Get(s, true)) == w.(reqs := w.reqs[s := Request(k, "", Missed)]);
  }

  /** While every request inside holds its lock, a step makes it possible that two requests of one key
      are inside, with no further handler outliving its lock, if and only if it is time passing the lock
      deadline of a request that is inside. */
  lemma OutlivingIsWhatLetsTwoIn(c: Config, w: World, e: Event)
    requires c.lockTtl > 0 && Locked(c, w)
    ensures MayHaveTwoInside(c, Step(c, w, e)) <==> Outlives(c, w, e)
  {
    var w' := Step(c, w, e);
    if Outlives(c, w, e) {
      var r :| r in w.reqs && Active(w.reqs[r].phase) && w.clock + e.seconds >= w.reqs[r].phase.began + c.lockTtl;
      assert Holds(c, w, r);
      TheNextComesIn(c, w', r);
    } else {
      StepKeepsLocks(c, w, e);
      forall es, r, s | Legal(c, w', es) ensures !TwoInside(Run(c, w', es), r, s) {
        LockedStays(c, w', es);
        NotTwo(c, Run(c, w', es), r, s);
      }
    }
  }

  // ---- Replays are genuine -------------------------------------------------------------------

  /** Every entry, and every response replayed, is what a handler answered to a request with the
      same key and the same body hash; and only cacheable ones are kept. */
  ghost predicate Genuine(c: Config, w: World) {
    && (forall k :: k in w.entries ==>
          Ran(k, w.entries[k].hash, w.entries[k].response) in w.ran && Cacheable(c, w.entries[k].response))
    && (forall r :: r in w.reqs && w.reqs[r].phase.Leaving? ==>
          Ran(w.reqs[r].key, w.reqs[r].hash, w.reqs[r].phase.response) in w.ran)
    && (forall r :: r in w.reqs && w.reqs[r].phase.Answered? && w.reqs[r].phase.answer.Replay? ==>
          Ran(w.reqs[r].key, w.reqs[r].hash, w.reqs[r].phase.answer.response) in w.ran
          && Cacheable(c, w.reqs[r].phase.answer.response))
  }

  lemma ReadIsGenuine(c: Config, w: World, r: Req, fault: bool, miss: Phase)
    requires Genuine(c, w) && r in w.reqs && (miss.Missed? || miss == Answered(InProgress))
    ensures var p := AfterRead(w, r, fault, miss);
      p == miss || (p.Answered? && (p.answer.Conflict? || (p.answer.Replay? && Cacheable(c, p.answer.response)
                                                           && Ran(w.reqs[r].key, w.reqs[r].hash, p.answer.response) in w.ran)))
  {}

  lemma ReadStepIsGenuine(c: Config, w: World, e: Event)
    requires Genuine(c, w) && Enabled(w, e) && (e.Get? || e.GetAgain?)
    ensures Genuine(c, Step(c, w, e))
  {
    hide AfterRead, Cacheable;
    ReadIsGenuine(c, w, e.r, e.fault, if e.Get? then Missed else Answered(InProgress));
  }

  lemma StoreIsGenuine(c: Config, w: World, r: Req, fault: bool)
    requires Genuine(c, w) && Enabled(w, Store(r, fault))
    ensures Genuine(c, Step(c, w, Store(r, fault)))
  { assert Ran(w.reqs[r].key, w.reqs[r].hash, w.reqs[r].phase.response) in w.ran; }

  lemma OtherStepIsGenuine(c: Config, w: World, e: Event)
    requires Genuine(c, w) && Enabled(w, e) && !e.Get? && !e.GetAgain? && !e.Store?
    ensures Genuine(c, Step(c, w, e))
  { hide Cacheable; }

  lemma StepIsGenuine(c: Config, w: World, e: Event)
    requires Genuine(c, w)
    ensures Genuine(c, Step(c, w, e))
  {
    hide Genuine;
    if Enabled(w, e) {
      hide Step;
      if e.Get? || e.GetAgain? {
        ReadStepIsGenuine(c, w, e);
      } else if e.Store? {
        StoreIsGenuine(c, w, e.r, e.fault);
      } else {
        OtherStepIsGenuine(c, w, e);
      }
    }
  }

  /** In every run, with any faults, deaths and clocks. */
  lemma {:induction false} ReplaysAreGenuine(c: Config, es: seq<Event>)
    ensures Genuine(c, Run(c, START, es))
    decreases |es|
  {
    if es != [] {
      ReplaysAreGenuine(c, es[..|es| - 1]);
      StepIsGenuine(c, Run(c, START, es[..|es| - 1]), es[|es| - 1]);
    }
  }

  lemma AnsweredStays(c: Config, w: World, e: Event, r: Req)
    requires w.PhaseOf(r).Answered?
    ensures Step(c, w, e).PhaseOf(r) == w.PhaseOf(r)
  {}

  /** A request whose first read finds a live entry is answered from it, or refused for a
      different body, and never reaches the handler, however the run goes on. */
  lemma {:induction false} AnEntrySettlesTheRequest(c: Config, w: World, r: Req, es: seq<Event>)
    requires w.PhaseOf(r).Arrived? && w.Read(w.reqs[r].key).Some?
    ensures Run(c, Step(c, w, Get(r, false)), es).PhaseOf(r) == Settled(w.Read(w.reqs[r].key).value, w.reqs[r].hash)
    decreases |es|
  {
    if es != [] {
      hide Step;
      AnEntrySettlesTheRequest(c, w, r, es[..|es| - 1]);
      AnsweredStays(c, Run(c, Step(c, w, Get(r, false)), es[..|es| - 1]), es[|es| - 1], r);
    }
  }

  // ---- How often a key is executed successfully ----------------------------------------------

  ghost predicate Apart(c: Config, stores: seq<Stored>, n: nat, key: Key, began: int) {
    forall i :: 0 <= i < n && i < |stores| && stores[i].key == key ==> stores[i].at + c.ttl <= began
  }

  /** Entries last as long as the latest store says. */
  ghost predicate Lasting(c: Config, w: World) {
    && (forall k :: k in w.entries ==>
          exists i :: 0 <= i < |w.stores| && w.stores[i].key == k && w.stores[i].at + c.ttl == w.entries[k].expires)
    && (forall i :: 0 <= i < |w.stores| ==>
          w.stores[i].key in w.entries && w.stores[i].at + c.ttl <= w.entries[w.stores[i].key].expires && w.stores[i].at <= w.clock)
  }

  predicate Storing(p: Phase) { p.Handling? || p.Leaving? }

  /** A request inside is clear exactly when every earlier store of its key had expired when it won
      the lock. */
  ghost predicate ClearInside(c: Config, w: World) {
    forall r :: r in w.reqs && Storing(w.reqs[r].phase) ==>
      (w.reqs[r].phase.clear <==> Apart(c, w.stores, |w.stores|, w.reqs[r].key, w.reqs[r].phase.began))
  }

  ghost predicate ClearStores(c: Config, stores: seq<Stored>) {
    forall j :: 0 <= j < |stores| ==> (stores[j].clear <==> Apart(c, stores, j, stores[j].key, stores[j].began))
  }

  ghost predicate Spaced(c: Config, w: World) { Lasting(c, w) && ClearInside(c, w) && ClearStores(c, w.stores) }

  lemma WinnerIsSpaced(c: Config, w: World, r: Req)
    requires Lasting(c, w) && w.PhaseOf(r).Missed?
    ensures w.Read(w.reqs[r].key).None? <==> Apart(c, w.stores, |w.stores|, w.reqs[r].key, w.clock)
  {
    var k := w.reqs[r].key;
    if w.Read(k).Some? {
      var i :| 0 <= i < |w.stores| && w.stores[i].key == k && w.stores[i].at + c.ttl == w.entries[k].expires;
      assert !(w.stores[i].at + c.ttl <= w.clock);
    }
  }

  lemma ApartAppend(c: Config, stores: seq<Stored>, x: Stored, n: nat, key: Key, began: int)
    requires n <= |stores| || (n == |stores| + 1 && x.key != key)
    ensures Apart(c, stores + [x], n, key, began) <==> Apart(c, stores, n, key, began)
  {
    forall i | 0 <= i < |stores| ensures (stores + [x])[i] == stores[i] {}
  }

  lemma StoreLasts(c: Config, w: World, w': World, k: Key, h: Hash, x: Response, began: int, clear: bool)
    requires Lasting(c, w)
    requires w' == w.(reqs := w'.reqs, entries := w.entries[k := Entry(h, x, w.clock + c.ttl)],
                      stores := w.stores + [Stored(k, began, clear, w.clock)])
    ensures Lasting(c, w')
  {
    hide World.Read, World.To, World.Taken;
    var n := |w.stores|;
    assert forall i :: 0 <= i < n ==> w'.stores[i] == w.stores[i];
    forall l | l in w'.entries
      ensures exists i :: 0 <= i < |w'.stores| && w'.stores[i].key == l && w'.stores[i].at + c.ttl == w'.entries[l].expires
    {
      if l == k {
        assert w'.stores[n].at + c.ttl == w'.entries[l].expires;
      } else {
        var i :| 0 <= i < n && w.stores[i].key == l && w.stores[i].at + c.ttl == w.entries[l].expires;
        assert w'.stores[i] == w.stores[i];
      }
    }
  }

  lemma StoreIsClear(c: Config, w: World, r: Req)
    requires ClearInside(c, w) && ClearStores(c, w.stores) && Locked(c, w) && w.PhaseOf(r).Leaving?
    ensures ClearInside(c, Step(c, w, Store(r, false))) && ClearStores(c, Step(c, w, Store(r, false)).stores)
  {
    var w', q, n := Step(c, w, Store(r, false)), w.reqs[r], |w.stores|;
    if Cacheable(c, q.phase.response) {
      var x := Stored(q.key, q.phase.began, q.phase.clear, w.clock);
      assert w'.stores == w.stores + [x];
      forall s | s in w'.reqs && Storing(w'.reqs[s].phase)
        ensures w'.reqs[s].phase.clear <==> Apart(c, w'.stores, n + 1, w'.reqs[s].key, w'.reqs[s].phase.began)
      {
        assert Apart(c, w.stores, n, w.reqs[s].key, w.reqs[s].phase.began) <==> Apart(c, w.stores, n + 1, w.reqs[s].key, w.reqs[s].phase.began);
        assert w'.reqs[s] == w.reqs[s] && Holds(c, w, s) && Holds(c, w, r);
        ApartAppend(c, w.stores, x, n + 1, w.reqs[s].key, w.reqs[s].phase.began);
      }
      forall j | 0 <= j < n + 1
        ensures w'.stores[j].clear <==> Apart(c, w'.stores, j, w'.stores[j].key, w'.stores[j].began)
      {
        ApartAppend(c, w.stores, x, j, w'.stores[j].key, w'.stores[j].began);
      }
    }
  }

  lemma QuietPhase(c: Config, w: World, e: Event, r: Req)
    requires !e.SetNx? && (e.Store? ==> e.fault)
    requires r in Step(c, w, e).reqs && Storing(Step(c, w, e).reqs[r].phase)
    ensures Storing(w.PhaseOf(r)) && r in w.reqs && w.reqs[r].key == Step(c, w, e).reqs[r].key
    ensures w.reqs[r].phase.began == Step(c, w, e).reqs[r].phase.began && w.reqs[r].phase.clear == Step(c, w, e).reqs[r].phase.clear
  {}

  lemma QuietStepIsSpaced(c: Config, w: World, e: Event)
    requires Spaced(c, w) && !e.SetNx? && (e.Store? ==> e.fault)
    ensures Spaced(c, Step(c, w, e))
  {
    hide Apart;
    var w' := Step(c, w, e);
    assert w'.stores == w.stores && w'.entries == w.entries && w.clock <= w'.clock;
    forall r | r in w'.reqs && Storing(w'.reqs[r].phase)
      ensures w'.reqs[r].phase.clear <==> Apart(c, w'.stores, |w'.stores|, w'.reqs[r].key, w'.reqs[r].phase.began)
    {
      QuietPhase(c, w, e, r);
    }
  }

  lemma WinKeepsSpaced(c: Config, w: World, r: Req, fault: bool)
    requires Spaced(c, w) && w.PhaseOf(r).Missed?
    ensures Spaced(c, Step(c, w, SetNx(r, fault)))
  {
    hide Apart;
    WinnerIsSpaced(c, w, r);
    var w' := Step(c, w, SetNx(r, fault));
    assert w'.stores == w.stores && w'.entries == w.entries;
    forall s | s in w'.reqs && Storing(w'.reqs[s].phase)
      ensures w'.reqs[s].phase.clear <==> Apart(c, w'.stores, |w'.stores|, w'.reqs[s].key, w'.reqs[s].phase.began)
    {
      if s != r { assert w'.reqs[s] == w.reqs[s]; }
    }
  }

  lemma LastingStays(c: Config, w: World, w': World)
    requires Lasting(c, w) && w'.stores == w.stores && w'.entries == w.entries && w.clock <= w'.clock
    ensures Lasting(c, w')
  {}

  lemma StepIsSpaced(c: Config, w: World, e: Event)
    requires Spaced(c, w) && Locked(c, w)
    ensures Spaced(c, Step(c, w, e))
  {
    hide Lasting, ClearInside, ClearStores, Locked;
    if !Enabled(w, e) {
    } else if e.SetNx? {
      WinKeepsSpaced(c, w, e.r, e.fault);
    } else if e.Store? && !e.fault {
      var q, w' := w.reqs[e.r], Step(c, w, e);
      StoreIsClear(c, w, e.r);
      if Cacheable(c, q.phase.response) {
        StoreLasts(c, w, w', q.key, q.hash, q.phase.response, q.phase.began, q.phase.clear);
      } else {
        LastingStays(c, w, w');
      }
    } else {
      QuietStepIsSpaced(c, w, e);
    }
  }

  lemma {:induction false} RunIsSpaced(c: Config, es: seq<Event>)
    requires c.lockTtl > 0 && Legal(c, START, es)
    ensures Spaced(c, Run(c, START, es))
    decreases |es|
  {
    if es != [] {
      RunIsSpaced(c, es[..|es| - 1]);
      RunKeepsLocks(c, es[..|es| - 1]);
      StepIsSpaced(c, Run(c, START, es[..|es| - 1]), es[|es| - 1]);
    }
  }

  /** A stored execution began a full entry lifetime after every earlier stored execution with its
      key, exactly when no entry was live as it won the lock. The entry is not read again then, so
      the first read does not ensure it. */
  lemma SuccessesAreApart(c: Config, es: seq<Event>, j: nat)
    requires c.lockTtl > 0 && Legal(c, START, es)
    requires j < |Run(c, START, es).stores|
    ensures var stores := Run(c, START, es).stores;
      stores[j].clear <==>
        forall i :: 0 <= i < j && stores[i].key == stores[j].key ==> stores[i].at + c.ttl <= stores[j].began
  {
    RunIsSpaced(c, es);
    var stores := Run(c, START, es).stores;
    assert Apart(c, stores, j, stores[j].key, stores[j].began) <==> stores[j].clear;
  }

  // ---- Two runs the protocol does not prevent ------------------------------------------------

  lemma Go(c: Config, es: seq<Event>, w: World, e: Event) returns (es': seq<Event>, w': World)
    requires Run(c, START, es) == w
    ensures w' == Step(c, w, e) && Run(c, START, es') == w'
    ensures Legal(c, START, es) && !Outlives(c, w, e) ==> Legal(c, START, es')
  {
    es', w' := es + [e], Step(c, w, e);
    assert es'[..|es|] == es;
  }

  lemma BothMiss(c: Config, k: Key, h: Hash) returns (es: seq<Event>, w: World)
    ensures Legal(c, START, es) && Run(c, START, es) == w
    ensures w == World(0, map[], map[], map[1 := Request(k, h, Missed), 2 := Request(k, h, Missed)], [], [])
  {
    es, w := [], START;
    es, w := Go(c, es, w, Arrive(1, k, h));
    es, w := Go(c, es, w, Arrive(2, k, h));
    es, w := Go(c, es, w, Get(1, false));
    es, w := Go(c, es, w, Get(2, false));
  }

  lemma OneStores(c: Config, k: Key, h: Hash, x: Response) returns (es: seq<Event>, w: World)
    requires c.lockTtl > 0
    ensures Legal(c, START, es) && Run(c, START, es) == w
    ensures w == World(0, if Cacheable(c, x) then map[k := Entry(h, x, c.ttl)] else map[], map[k := Lock(h, c.lockTtl, 1)],
                       map[1 := Request(k, h, Releasing(0, true, x)), 2 := Request(k, h, Missed)], [Ran(k, h, x)],
                       if Cacheable(c, x) then [Stored(k, 0, true, 0)] else [])
  {
    es, w := BothMiss(c, k, h);
    es, w := Go(c, es, w, SetNx(1, false));
    es, w := Go(c, es, w, Finish(1, x));
    es, w := Go(c, es, w, Store(1, false));
  }

  lemma OneRuns(c: Config, k: Key, h: Hash, x: Response) returns (es: seq<Event>, w: World)
    requires c.lockTtl > 0
    ensures Legal(c, START, es) && Run(c, START, es) == w && w.ran == [Ran(k, h, x)] && w.locks == map[]
    ensures w.reqs == map[1 := Request(k, h, Answered(Own(x))), 2 := Request(k, h, Missed)]
    ensures Cacheable(c, x) ==> w.entries == map[k := Entry(h, x, c.ttl)] && w.clock == 0
  {
    es, w := OneStores(c, k, h, x);
    es, w := Go(c, es, w, Release(1, false));
    assert map[k := Lock(h, c.lockTtl, 1)] - {k} == map[];
  }

  /** Both requests miss; one runs, stores and releases; then the other wins the lock and runs
      too, though the entry is there (it is not clear): for every key, body and response. */
  lemma AMissedReadMayRunAgain(c: Config, k: Key, h: Hash, x: Response) returns (es: seq<Event>)
    requires c.lockTtl > 0 && c.ttl > 0 && Cacheable(c, x)
    ensures Legal(c, START, es) && Run(c, START, es).ran == [Ran(k, h, x), Ran(k, h, x)]
    ensures Run(c, START, es).PhaseOf(2) == Leaving(0, false, x)
  {
    var w;
    es, w := OneRuns(c, k, h, x);
    es, w := Go(c, es, w, SetNx(2, false));
    es, w := Go(c, es, w, Finish(2, x));
  }

  lemma RetryTakesOver(c: Config, k: Key, h: Hash) returns (es: seq<Event>, w: World)
    ensures Run(c, START, es) == w && w.clock == c.lockTtl && w.entries == map[]
    ensures w.reqs.Keys == {1, 2} && w.reqs[1] == Request(k, h, Handling(0, true))
    ensures w.reqs[2] == Request(k, h, Handling(c.lockTtl, true)) && w.locks == map[k := Lock(h, 2 * c.lockTtl, 2)]
  {
    es, w := BothMiss(c, k, h);
    es, w := Go(c, es, w, SetNx(1, false));
    es, w := Go(c, es, w, Tick(c.lockTtl));
    es, w := Go(c, es, w, SetNx(2, false));
  }

  lemma StaleOwnerReleases(c: Config, k: Key, h: Hash) returns (es: seq<Event>, w: World)
    requires c.lockTtl > 0
    ensures Run(c, START, es) == w && w.entries == map[] && w.locks == map[]
    ensures w.reqs.Keys == {1, 2} && w.reqs[2] == Request(k, h, Handling(c.lockTtl, true))
  {
    es, w := RetryTakesOver(c, k, h);
    es, w := Go(c, es, w, Finish(1, Response(500, "")));
    es, w := Go(c, es, w, Store(1, false));
    es, w := Go(c, es, w, Release(1, false));
    assert map[k := Lock(h, 2 * c.lockTtl, 2)] - {k} == map[];
  }

  /** The lock's value is the body hash, which a retry shares: a handler that outlived its lock
      deletes the lock of the retry, and a third request comes in beside it. */
  lemma AStaleOwnerFreesTheRetrysLock(c: Config, k: Key, h: Hash) returns (es: seq<Event>)
    requires c.lockTtl > 0
    ensures var w := Run(c, START, es);
      w.PhaseOf(2).Handling? && w.PhaseOf(3).Handling? && w.reqs[2].key == w.reqs[3].key == k
  {
    var w;
    es, w := StaleOwnerReleases(c, k, h);
    es, w := Go(c, es, w, Arrive(3, k, h));
    es, w := Go(c, es, w, Get(3, false));
    es, w := Go(c, es, w, SetNx(3, false));
  }

  // ---- The names of entries and locks --------------------------------------------------------

  const LOCK := ":lock"

  function LockKey(ck: string): string { ck + LOCK }

  /** sha stands for the hash of the path, in hex. */
  function CacheKey(principal: string, verb: string, sha: string, key: string): string {
    "idemp:" + principal + ":" + verb + ":" + sha + ":" + key
  }

  predicate EndsInLock(s: string) { |s| >= |LOCK| && s[|s| - |LOCK|..] == LOCK }

  /** A cache key can be some lock's key exactly for the client keys that end in ":lock" and for
      "lock" itself; with no such client key, locks never meet entries, and the model may keep
      them apart. */
  lemma LocksAreNotEntries(p: string, v: string, sha: string, key: string)
    ensures var ck := CacheKey(p, v, sha, key);
      && (EndsInLock(ck) <==> exists x :: ck == LockKey(x))
      && (EndsInLock(ck) <==> EndsInLock(key) || key == "lock")
    ensures forall a, b :: LockKey(a) == LockKey(b) ==> a == b
  {
    var ck := CacheKey(p, v, sha, key);
    if EndsInLock(ck) { assert ck == LockKey(ck[..|ck| - |LOCK|]); }
    if x :| ck == LockKey(x) { assert ck[|ck| - |LOCK|..] == LOCK; }
    EndOfCacheKey(p, v, sha, key);
    forall a, b | LockKey(a) == LockKey(b) ensures a == b {
      assert LockKey(a)[..|a|] == a && LockKey(b)[..|b|] == b;
    }
  }

  lemma EndOfCacheKey(p: string, v: string, sha: string, key: string)
    ensures EndsInLock(CacheKey(p, v, sha, key)) <==> EndsInLock(key) || key == "lock"
  {
    var ck := CacheKey(p, v, sha, key);
    var end := ck[|ck| - |LOCK|..];
    if |key| >= |LOCK| {
      assert end == key[|key| - |LOCK|..];
    } else {
      var i := |LOCK| - |key| - 1;
      assert end[i] == ':' && forall j :: 0 <= j < |key| ==> end[i + 1 + j] == key[j];
      assert LOCK == [':', 'l', 'o', 'c', 'k'];
      if end == LOCK {
        assert i == 0 && |key| == 4 && key == "lock";
      }
      if key == "lock" { assert end == LOCK; }
    }
  }

  lemma LastColon(a: string, b: string, c: string, d: string)
    requires ':' !in b && ':' !in d && a + ":" + b == c + ":" + d
    ensures a == c && b == d
  {
    var x := a + ":" + b;
    assert x[|a|] == ':' && x[|c|] == ':';
    assert x[|a| + 1..] == b && x[|c| + 1..] == d;
    forall i | |a| < i < |x| ensures x[i] != ':' { assert x[i] == b[i - |a| - 1]; }
    forall i | |c| < i < |x| ensures x[i] != ':' { assert x[i] == d[i - |c| - 1]; }
    assert x[..|a|] == a && x[..|c|] == c;
  }

  /** Two callers never share an entry, nor two routes, when the client keys have no colon. */
  lemma EntriesAreSeparate(p: string, v: string, sha: string, key: string, p': string, v': string, sha': string, key': string)
    requires ':' !in v + sha + key + v' + sha' + key'
    requires CacheKey(p, v, sha, key) == CacheKey(p', v', sha', key')
    ensures p == p' && v == v' && sha == sha' && key == key'
  {
    NoColons(v, sha, key, v', sha', key');
    LastColon("idemp:" + p + ":" + v + ":" + sha, key, "idemp:" + p' + ":" + v' + ":" + sha', key');
    LastColon("idemp:" + p + ":" + v, sha, "idemp:" + p' + ":" + v', sha');
    LastColon("idemp:" + p, v, "idemp:" + p', v');
    assert ("idemp:" + p)[6..] == p && ("idemp:" + p')[6..] == p';
  }

  lemma NoColons(a: string, b: string, c: string, d: string, e: string, f: string)
    requires ':' !in a + b + c + d + e + f
    ensures ':' !in a && ':' !in b && ':' !in c && ':' !in d && ':' !in e && ':' !in f
  {}

  /** Where the last colon cuts a string. */
  function Cut(s: string): (c: (string, string))
    requires ':' in s
    ensures s == c.0 + ":" + c.1 && ':' !in c.1
  {
    var n := |s| - 1;
    if s[n] == ':' then assert s == s[..n] + ":" + ""; (s[..n], "")
    else
      assert s == s[..n] + [s[n]];
      var c := Cut(s[..n]);
      assert s == c.0 + ":" + (c.1 + [s[n]]);
      (c.0, c.1 + [s[n]])
  }

  /** What a string of two more pieces ends in. */
  lemma LastTwo(x: string, y: string, z: string) returns (p: string, v: string, sha: string)
    ensures x + ":" + y + ":" + z == p + ":" + v + ":" + sha && ':' !in v && ':' !in sha
  {
    var s := x + ":" + y + ":" + z;
    assert s[|x|] == ':' && s[|x| + 1 + |y|] == ':';
    var r := Cut(s).0;
    sha := Cut(s).1;
    forall i | |r| < i < |s| ensures s[i] != ':' { assert s[i] == sha[i - |r| - 1]; }
    assert r[|x|] == ':';
    p, v := Cut(r).0, Cut(r).1;
  }

  ghost predicate Alone(p: string, v: string, sha: string, key: string) {
    forall p', v', sha', key' :: ':' !in v' + sha' + key' && CacheKey(p, v, sha, key) == CacheKey(p', v', sha', key') ==>
      p == p' && v == v' && sha == sha' && key == key'
  }

  /** A request shares its entry with no other caller, route or key, among those with colon-free
      methods, hashes and keys, if and only if its own key has no colon. */
  lemma ColonFreeKeysAreExactlyAlone(p: string, v: string, sha: string, key: string)
    requires ':' !in v + sha
    ensures Alone(p, v, sha, key) <==> ':' !in key
  {
    if ':' !in key {
      forall p', v', sha', key' | ':' !in v' + sha' + key' && CacheKey(p, v, sha, key) == CacheKey(p', v', sha', key')
        ensures p == p' && v == v' && sha == sha' && key == key'
      {
        NoneIn(v, sha, key, v', sha', key');
        EntriesAreSeparate(p, v, sha, key, p', v', sha', key');
      }
    } else {
      ColonsCross(p, v, sha, key);
    }
  }

  lemma NoneIn(a: string, b: string, c: string, d: string, e: string, f: string)
    requires ':' !in a + b && ':' !in c && ':' !in d + e + f
    ensures ':' !in a + b + c + d + e + f
  {}

  /** A key with a colon names the entry of another caller. */
  lemma ColonsCross(p: string, v: string, sha: string, key: string)
    requires ':' in key
    ensures !Alone(p, v, sha, key)
  {
    var c := Cut(key);
    var p', v', sha' := LastTwo(p + ":" + v, sha, c.0);
    assert CacheKey(p, v, sha, key) == CacheKey(p', v', sha', c.1) by {
      assert CacheKey(p, v, sha, key) == "idemp:" + (p + ":" + v + ":" + sha + ":" + c.0) + ":" + c.1;
      assert CacheKey(p', v', sha', c.1) == "idemp:" + (p' + ":" + v' + ":" + sha') + ":" + c.1;
    }
    assert |c.1| < |key|;
    assert ':' !in v' + sha' + c.1;
  }

  // ---- The middleware, one request at a time -------------------------------------------------

  class Cache {
    const config: Config
    var clock: int
    var entries: map<Key, Entry>
    var locks: map<Key, Lock>
    var reqs: map<Req, Request>
    ghost var ran: seq<Ran>
    ghost var stores: seq<Stored>

    ghost function View(): World reads this { World(clock, entries, locks, reqs, ran, stores) }

    constructor (c: Config)
      ensures config == c && View() == START
    {
      config := c;
      clock, entries, locks, reqs := 0, map[], map[], map[];
      ran, stores := [], [];
    }

    method Lookup(k: Key) returns (x: Option<Entry>)
      ensures x == View().Read(k)
    {
      x := if k in entries && clock < entries[k].expires then Some(entries[k]) else None;
    }

    method SetPhase(r: Req, p: Phase)
      requires r in reqs
      modifies this`reqs
      ensures View() == old(View()).To(r, p)
    { reqs := reqs[r := reqs[r].(phase := p)]; }

    /** A request that has not got the lock reads once more. meanwhile: what another request that is inside
        gets done before. */
    method ReadAgain(r: Req, fault: bool, meanwhile: Option<Leaver>) returns (answer: Answer)
      requires r in reqs && reqs[r].phase.Refused? && (meanwhile.Some? ==> View().PhaseOf(meanwhile.value.r).Handling?)
      modifies this
      ensures View() == Run(config, old(View()), Others(meanwhile) + [GetAgain(r, fault)])
      ensures View().PhaseOf(r) == Answered(answer)
    {
      if meanwhile.Some? { PostHandle(meanwhile.value.r, meanwhile.value.response, false, false); }
      RunOn(config, old(View()), Others(meanwhile), GetAgain(r, fault));
      var x := None;
      if !fault { x := Lookup(reqs[r].key); }
      answer := if x.Some? then Verdict(x.value, reqs[r].hash) else InProgress;
      SetPhase(r, Answered(answer));
    }

    /** The first read, and then the lock. */
    method ReadAndLock(r: Req, k: Key, h: Hash, f: Faults) returns (x: Option<Entry>, got: bool)
      requires r !in reqs
      modifies this
      ensures View() == Run(config, old(View()), First(old(View()), r, k, h, f))
      ensures x == (if f.get then None else old(View()).Read(k)) && (x.None? ==> (got <==> !f.lock && !old(View()).Taken(k)))
      ensures reqs == old(reqs)[r := Request(k, h, if x.Some? then Settled(x.value, h)
                                                   else if got then Handling(clock, old(View()).Read(k).None?) else Refused)]
      ensures clock == old(clock)
    {
      FirstRuns(config, View(), r, k, h, f);
      x, got := None, false;
      if !f.get { x := Lookup(k); }
      if x.Some? {
        reqs := reqs[r := Request(k, h, Settled(x.value, h))];
      } else if f.lock || (k in locks && clock < locks[k].expires) {
        reqs := reqs[r := Request(k, h, Refused)];
      } else {
        got := true;
        locks := locks[k := Lock(h, clock + config.lockTtl, r)];
        reqs := reqs[r := Request(k, h, Handling(clock, !(k in entries && clock < entries[k].expires)))];
      }
    }

    /** One request's commands, any of which may fault. Empty means that it goes to the handler. */
    method PreHandle(r: Req, k: Key, h: Hash, f: Faults, meanwhile: Option<Leaver>) returns (answer: Option<Answer>)
      requires r !in reqs && (meanwhile.Some? ==> View().PhaseOf(meanwhile.value.r).Handling?)
      modifies this
      ensures View() == Run(config, old(View()), Before(old(View()), r, k, h, f, meanwhile))
      ensures View().PhaseOf(r) ==
        if answer.Some? then Answered(answer.value) else Handling(old(clock), old(View()).Read(k).None?)
    {
      hide Run, First;
      var x, got := ReadAndLock(r, k, h, f);
      if x.Some? { return Some(Verdict(x.value, h)); }
      if got { return None; }
      var y := ReadAgain(r, f.again, meanwhile);
      RunAppend(config, old(View()), First(old(View()), r, k, h, f), Others(meanwhile) + [GetAgain(r, f.again)]);
      answer := Some(y);
    }

    /** Store what may be stored; then, whatever happened, compare and delete the lock. */
    method PostHandle(r: Req, x: Response, writeFault: bool, unlockFault: bool)
      requires r in reqs && reqs[r].phase.Handling?
      modifies this
      ensures View() == Run(config, old(View()), [Finish(r, x), Store(r, writeFault), Release(r, unlockFault)])
      ensures reqs == old(reqs)[r := old(reqs)[r].(phase := Answered(Own(x)))]
    {
      var q := reqs[r];
      ran := ran + [Ran(q.key, q.hash, x)];
      if Cacheable(config, x) && !writeFault {
        entries := entries[q.key := Entry(q.hash, x, clock + config.ttl)];
        stores := stores + [Stored(q.key, q.phase.began, q.phase.clear, clock)];
      }
      if !unlockFault && q.key in locks && clock < locks[q.key].expires && locks[q.key].owner == q.hash {
        locks := locks - {q.key};
      }
      SetPhase(r, Answered(Own(x)));
      AfterRuns(config, old(View()), r, x, writeFault, unlockFault);
    }
  }

  /** Which of the three commands fault. */
  datatype Faults = Faults(get: bool, lock: bool, again: bool)

  /** A request that is inside, and the response that it leaves with. */
  datatype Leaver = Leaver(r: Req, response: Response)

  function Leaves(o: Leaver): seq<Event> { [Finish(o.r, o.response), Store(o.r, false), Release(o.r, false)] }

  function Others(o: Option<Leaver>): seq<Event> { if o.Some? then Leaves(o.value) else [] }

  /** The commands of one request's pre-handling, up to the lock and as a whole. */
  function First(w: World, r: Req, k: Key, h: Hash, f: Faults): seq<Event> {
    if !f.get && w.Read(k).Some? then [Arrive(r, k, h), Get(r, f.get)] else [Arrive(r, k, h), Get(r, f.get), SetNx(r, f.lock)]
  }

  function Before(w: World, r: Req, k: Key, h: Hash, f: Faults, o: Option<Leaver>): seq<Event> {
    if (!f.get && w.Read(k).Some?) || (!f.lock && !w.Taken(k)) then First(w, r, k, h, f)
    else First(w, r, k, h, f) + (Others(o) + [GetAgain(r, f.again)])
  }

  lemma RunOn(c: Config, w: World, es: seq<Event>, e: Event)
    ensures Run(c, w, es + [e]) == Step(c, Run(c, w, es), e)
  { assert (es + [e])[..|es|] == es; }

  lemma {:induction false} RunAppend(c: Config, w: World, es: seq<Event>, more: seq<Event>)
    ensures Run(c, w, es + more) == Run(c, Run(c, w, es), more)
    decreases |more|
  {
    if more == [] {
      assert es + more == es;
    } else {
      var front, e := more[..|more| - 1], more[|more| - 1];
      RunAppend(c, w, es, front);
      RunOn(c, w, es + front, e);
      assert es + front + [e] == es + more;
    }
  }

  lemma RunTwo(c: Config, w: World, a: Event, b: Event)
    ensures Run(c, w, [a, b]) == Step(c, Step(c, w, a), b)
  {
    RunOn(c, w, [], a);
    RunOn(c, w, [a], b);
    assert [] + [a] == [a] && [a] + [b] == [a, b];
  }

  lemma RunThree(c: Config, w: World, a: Event, b: Event, d: Event)
    ensures Run(c, w, [a, b, d]) == Step(c, Step(c, Step(c, w, a), b), d)
  {
    RunTwo(c, w, a, b);
    RunOn(c, w, [a, b], d);
    assert [a, b] + [d] == [a, b, d];
  }

  lemma ReadRuns(c: Config, w: World, r: Req, k: Key, h: Hash, fault: bool)
    requires r !in w.reqs
    ensures Step(c, Step(c, w, Arrive(r, k, h)), Get(r, fault)) ==
      w.(reqs := w.reqs[r := Request(k, h, if !fault && w.Read(k).Some? then Settled(w.Read(k).value, h) else Missed)])
  {
    var w1 := Step(c, w, Arrive(r, k, h));
    assert w1 == w.(reqs := w.reqs[r := Request(k, h, Arrived)]) && w1.Read(k) == w.Read(k);
  }

  lemma LockRuns(c: Config, w: World, r: Req, k: Key, h: Hash, fault: bool)
    ensures Step(c, w.(reqs := w.reqs[r := Request(k, h, Missed)]), SetNx(r, fault)) ==
      if fault || w.Taken(k) then w.(reqs := w.reqs[r := Request(k, h, Refused)])
      else w.(reqs := w.reqs[r := Request(k, h, Handling(w.clock, w.Read(k).None?))],
              locks := w.locks[k := Lock(h, w.clock + c.lockTtl, r)])
  {
    var w1 := w.(reqs := w.reqs[r := Request(k, h, Missed)]);
    assert w1.Read(k) == w.Read(k) && w1.Taken(k) == w.Taken(k);
  }

  lemma FirstRuns(c: Config, w: World, r: Req, k: Key, h: Hash, f: Faults)
    requires r !in w.reqs
    ensures Run(c, w, First(w, r, k, h, f)) ==
      if !f.get && w.Read(k).Some? then w.(reqs := w.reqs[r := Request(k, h, Settled(w.Read(k).value, h))])
      else if f.lock || w.Taken(k) then w.(reqs := w.reqs[r := Request(k, h, Refused)])
      else w.(reqs := w.reqs[r := Request(k, h, Handling(w.clock, w.Read(k).None?))],
              locks := w.locks[k := Lock(h, w.clock + c.lockTtl, r)])
  {
    RunTwo(c, w, Arrive(r, k, h), Get(r, f.get));
    ReadRuns(c, w, r, k, h, f.get);
    if f.get || w.Read(k).None? {
      RunThree(c, w, Arrive(r, k, h), Get(r, f.get), SetNx(r, f.lock));
      LockRuns(c, w, r, k, h, f.lock);
    }
  }

  lemma StoreRuns(c: Config, w: World, r: Req, x: Response, f: bool)
    requires w.PhaseOf(r).Handling?
    ensures var q := w.reqs[r];
      var kept := Cacheable(c, x) && !f;
      Step(c, Step(c, w, Finish(r, x)), Store(r, f)) ==
        World(w.clock, if kept then w.entries[q.key := Entry(q.hash, x, w.clock + c.ttl)] else w.entries, w.locks,
              w.reqs[r := q.(phase := Releasing(q.phase.began, q.phase.clear, x))], w.ran + [Ran(q.key, q.hash, x)],
              if kept then w.stores + [Stored(q.key, q.phase.began, q.phase.clear, w.clock)] else w.stores)
  {}

  lemma ReleaseRuns(c: Config, w: World, r: Req, x: Response, g: bool)
    requires w.PhaseOf(r).Handling?
    ensures var q := w.reqs[r];
      Step(c, w.(reqs := w.reqs[r := q.(phase := Releasing(q.phase.began, q.phase.clear, x))]), Release(r, g)) ==
        w.(reqs := w.reqs[r := q.(phase := Answered(Own(x)))],
           locks := if !g && w.Taken(q.key) && w.locks[q.key].owner == q.hash then w.locks - {q.key} else w.locks)
  {}

  lemma AfterRuns(c: Config, w: World, r: Req, x: Response, f: bool, g: bool)
    requires w.PhaseOf(r).Handling?
    ensures var q := w.reqs[r];
      var kept := Cacheable(c, x) && !f;
      Run(c, w, [Finish(r, x), Store(r, f), Release(r, g)]) ==
        World(w.clock,
              if kept then w.entries[q.key := Entry(q.hash, x, w.clock + c.ttl)] else w.entries,
              if !g && w.Taken(q.key) && w.locks[q.key].owner == q.hash then w.locks - {q.key} else w.locks,
              w.reqs[r := q.(phase := Answered(Own(x)))],
              w.ran + [Ran(q.key, q.hash, x)],
              if kept then w.stores + [Stored(q.key, q.phase.began, q.phase.clear, w.clock)] else w.stores)
  {
    var q, kept := w.reqs[r], Cacheable(c, x) && !f;
    var entries := if kept then w.entries[q.key := Entry(q.hash, x, w.clock + c.ttl)] else w.entries;
    var stores := if kept then w.stores + [Stored(q.key, q.phase.began, q.phase.clear, w.clock)] else w.stores;
    StoreRuns(c, w, r, x, f);
    ReleaseRuns(c, World(w.clock, entries, w.locks, w.reqs, w.ran + [Ran(q.key, q.hash, x)], stores), r, x, g);
    hide Step;
    RunThree(c, w, Finish(r, x), Store(r, f), Release(r, g));
  }

  /** Every answer of the pre-handling with no other request in between, and whichever commands fault: an
      entry read first decides by the body's hash; without one a free lock lets the request in; and when
      the lock is taken or could not be tried, an entry read then decides, and otherwise the request is
      told that another one is in progress. */
  lemma EveryAnswer(c: Config, w: World, r: Req, k: Key, h: Hash, f: Faults)
    requires r !in w.reqs
    ensures var entry := k in w.entries && w.clock < w.entries[k].expires;
      var free := k !in w.locks || w.clock >= w.locks[k].expires;
      Run(c, w, Before(w, r, k, h, f, None)).PhaseOf(r) ==
        if entry && !f.get then Answered(if w.entries[k].hash == h then Replay(w.entries[k].response) else Conflict)
        else if free && !f.lock then Handling(w.clock, !entry)
        else if entry && !f.again then Answered(if w.entries[k].hash == h then Replay(w.entries[k].response) else Conflict)
        else Answered(InProgress)
  {
    FirstRuns(c, w, r, k, h, f);
    if !(!f.get && w.Read(k).Some?) && !(!f.lock && !w.Taken(k)) {
      var w1 := w.(reqs := w.reqs[r := Request(k, h, Refused)]);
      var again := [] + [GetAgain(r, f.again)];
      RunOn(c, w1, [], GetAgain(r, f.again));
      RunAppend(c, w, First(w, r, k, h, f), again);
      assert w1.Read(k) == w.Read(k);
    }
  }

  /** A live lock goes only when a request with the key and the body hash that it was set with releases
      it, whoever that is. */
  lemma ALiveLockStays(c: Config, w: World, e: Event, k: Key)
    requires w.Taken(k) && Enabled(w, e) && !e.Tick?
    ensures var w' := Step(c, w, e);
      && (k in w'.locks ==> w'.locks[k] == w.locks[k])
      && (k !in w'.locks <==> e.Release? && !e.fault && w.reqs[e.r].key == k && w.reqs[e.r].hash == w.locks[k].owner)
  {}

  /** Which response is kept. A key had no live entry; its handler ends with x, and nothing faults. A
      later request of the key is answered from x if and only if the status is a success, the body is small
      enough and the entry's lifetime has not passed; one with another body is then refused, and
      otherwise it goes on to the lock. No other response changes an entry. */
  lemma KeptExactlyIfASmallSuccess(c: Config, w: World, r: Req, x: Response, seconds: nat, q: Req, h: Hash)
    requires w.PhaseOf(r).Handling? && w.Read(w.reqs[r].key).None? && q !in w.reqs
    ensures var k, kept := w.reqs[r].key, 200 <= x.status < 300 && |x.body| <= c.maxResponse;
      var done := Run(c, w, [Finish(r, x), Store(r, false), Release(r, false)]);
      var later := Run(c, done, [Tick(seconds), Arrive(q, k, h), Get(q, false)]);
      && (!kept ==> done.entries == w.entries)
      && later.PhaseOf(q) == if !kept || seconds >= c.ttl then Missed
                             else Answered(if h == w.reqs[r].hash then Replay(x) else Conflict)
  {
    var k, done := w.reqs[r].key, Run(c, w, [Finish(r, x), Store(r, false), Release(r, false)]);
    AfterRuns(c, w, r, x, false, false);
    assert Step(c, done, Tick(seconds)) == done.(clock := done.clock + seconds);
    ReadRuns(c, done.(clock := done.clock + seconds), q, k, h, false);
    hide Step;
    RunThree(c, done, Tick(seconds), Arrive(q, k, h), Get(q, false));
  }

  lemma LeavingStores(c: Config, w: World, o: Leaver)
    requires w.PhaseOf(o.r).Handling? && Cacheable(c, o.response) && c.ttl > 0
    ensures var w', q := Run(c, w, Leaves(o)), w.reqs[o.r];
      w'.Read(q.key) == Some(Entry(q.hash, o.response, w.clock + c.ttl)) && forall r :: r != o.r && r in w.reqs ==> r in w'.reqs && w'.reqs[r] == w.reqs[r]
  { AfterRuns(c, w, o.r, o.response, false, false); }

  /** A request that finds the lock taken by a handler that stores its response just then is answered
      from it, or refused if its body is another. */
  lemma TheSecondReadAnswers(c: Config, w: World, r: Req, k: Key, h: Hash, o: Leaver)
    requires r !in w.reqs && w.Read(k).None? && w.Taken(k) && c.ttl > 0
    requires w.PhaseOf(o.r).Handling? && w.reqs[o.r].key == k && Cacheable(c, o.response)
    ensures Run(c, w, Before(w, r, k, h, Faults(false, false, false), Some(o))).PhaseOf(r) ==
      Answered(if h == w.reqs[o.r].hash then Replay(o.response) else Conflict)
  {
    var es := First(w, r, k, h, Faults(false, false, false));
    FirstRuns(c, w, r, k, h, Faults(false, false, false));
    var w1 := w.(reqs := w.reqs[r := Request(k, h, Refused)]);
    LeavingStores(c, w1, o);
    RunOn(c, w1, Leaves(o), GetAgain(r, false));
    RunAppend(c, w, es, Leaves(o) + [GetAgain(r, false)]);
  }
}
