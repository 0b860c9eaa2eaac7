/** Refresh sessions: one marker per refresh token, and per user an index of them for "log out
    everywhere". Markers and indexes expire on their own. */
module Sessions {
  import opened Wrappers

  type Jti = string
  type Sub = string

  datatype Marker = Marker(sub: Sub, expires: int)

  datatype Index = Index(jtis: set<Jti>, expires: int)

  datatype Store = Store(clock: int, markers: map<Jti, Marker>, index: map<Sub, Index>) {
    predicate Live(j: Jti) { j in markers && clock < markers[j].expires }

    function Members(s: Sub): set<Jti> { if s in index && clock < index[s].expires then index[s].jtis else {} }

    ghost function Sessions(s: Sub): set<Jti> { set j | j in markers && Live(j) && markers[j].sub == s }
  }

  /** The value of a marker that names no owner, from before owners were recorded. */
  const LEGACY: Sub := "1"

  function Recorded(t: Store, s: Sub, j: Jti, ttl: nat): Store {
    t.(markers := t.markers[j := Marker(s, t.clock + ttl)], index := t.index[s := Index(t.Members(s) + {j}, t.clock + ttl)])
  }

  /** SREM: the key of a set that becomes empty is gone. */
  function Unindexed(t: Store, s: Sub, j: Jti): Store {
    var rest := t.Members(s) - {j};
    if t.Members(s) == {} then t
    else if rest == {} then t.(index := t.index - {s})
    else t.(index := t.index[s := Index(rest, t.index[s].expires)])
  }

  function Revoked(t: Store, j: Jti): Store {
    var t' := t.(markers := t.markers - {j});
    if t.Live(j) && t.markers[j].sub != "" && t.markers[j].sub != LEGACY then Unindexed(t', t.markers[j].sub, j) else t'
  }

  function RevokedAll(t: Store, s: Sub): Store {
    t.(markers := t.markers - t.Members(s), index := t.index - {s})
  }

  datatype Answer = Refused(why: string) | Accepted

  /** The handler of /refresh for a verified refresh token of s with id j. user: whether the user
      still exists. stored: whether the new marker can be written. next: the id of the token minted in
      exchange. */
  function Refreshed(t: Store, s: Sub, j: Jti, user: bool, stored: bool, next: Jti, ttl: nat): (Store, Answer) {
    if !t.Live(j) then (t, Refused("revoked"))
    else if !user then (Revoked(t, j), Refused("user_gone"))
    else if !stored then (Revoked(t, j), Refused("session_unavailable"))
    else (Recorded(Revoked(t, j), s, next, ttl), Accepted)
  }

  class SessionStore {
    var clock: int
    var markers: map<Jti, Marker>
    var index: map<Sub, Index>

    function View(): Store reads this { Store(clock, markers, index) }

    constructor ()
      ensures View() == Store(0, map[], map[])
    { clock, markers, index := 0, map[], map[]; }

    method Record(s: Sub, j: Jti, ttl: nat)
      modifies this
      ensures View() == Recorded(old(View()), s, j, ttl)
    {
      markers := markers[j := Marker(s, clock + ttl)];
      var members := if s in index && clock < index[s].expires then index[s].jtis else {};
      index := index[s := Index(members + {j}, clock + ttl)];
    }

    method IsLive(j: Jti) returns (live: bool)
      ensures live == View().Live(j)
    { live := j in markers && clock < markers[j].expires; }

    method Srem(s: Sub, j: Jti)
      modifies this
      ensures View() == Unindexed(old(View()), s, j)
    {
      if s in index && clock < index[s].expires && index[s].jtis != {} {
        var rest := index[s].jtis - {j};
        if rest == {} { index := index - {s}; } else { index := index[s := Index(rest, index[s].expires)]; }
      }
    }

    method RevokeJti(j: Jti)
      modifies this
      ensures View() == Revoked(old(View()), j)
    {
      var sub := None;
      if j in markers && clock < markers[j].expires { sub := Some(markers[j].sub); }
      markers := markers - {j};
      if sub.Some? && sub.value != "" && sub.value != LEGACY { Srem(sub.value, j); }
    }

    /** One DEL for every marker that the index names, and for the index. */
    method RevokeAll(s: Sub)
      modifies this
      ensures View() == RevokedAll(old(View()), s)
    {
      var members := if s in index && clock < index[s].expires then index[s].jtis else {};
      var keys: seq<Jti> := [];
      var todo := members;
      while todo != {}
        invariant todo <= members && forall k :: k in keys <==> k in members - todo
        decreases |todo|
      {
        var j :| j in todo;
        ghost var was := keys;
        keys := keys + [j];
        todo := todo - {j};
        assert forall k :: k in keys <==> k in was || k == j;
      }
      assert (set k | k in keys) == members;
      markers := markers - (set k | k in keys);
      index := index - {s};
    }

    method Refresh(s: Sub, j: Jti, user: bool, stored: bool, minted: Jti, ttl: nat) returns (a: Answer)
      modifies this
      ensures (View(), a) == Refreshed(old(View()), s, j, user, stored, minted, ttl)
    {
      var live := IsLive(j);
      if !live { return Refused("revoked"); }
      RevokeJti(j);
      if !user { return Refused("user_gone"); }
      if !stored { return Refused("session_unavailable"); }
      Record(s, minted, ttl);
      return Accepted;
    }
  }

  // ---- Runs ----------------------------------------------------------------------------------

  /** minted: the subject of every token ever issued, by id. accepted: the ids that /refresh has
      accepted, in order. */
  datatype World = World(store: Store, minted: map<Jti, Sub>, accepted: seq<Jti>)

  datatype Event =
    | Tick(seconds: nat)
    | Login(s: Sub, j: Jti, ttl: nat)
    | Refresh(j: Jti, user: bool, stored: bool, next: Jti, ttl: nat)
    | Logout(j: Jti)
    | LogoutEverywhere(s: Sub)

  /** Ids are never minted twice. A token is signed, so its subject is the one it was minted for. */
  predicate Enabled(w: World, e: Event) {
    match e
    case Tick(_) => true
    case Login(_, j, _) => j !in w.minted
    case Refresh(j, _, _, next, _) => j in w.minted && next !in w.minted
    case Logout(j) => j in w.minted
    case LogoutEverywhere(_) => true
  }

  function Step(w: World, e: Event): World {
    if !Enabled(w, e) then w else
    match e
    case Tick(n) => w.(store := w.store.(clock := w.store.clock + n))
    case Login(s, j, ttl) => w.(store := Recorded(w.store, s, j, ttl), minted := w.minted[j := s])
    case Refresh(j, user, stored, next, ttl) =>
      var (t, a) := Refreshed(w.store, w.minted[j], j, user, stored, next, ttl);
      if a.Accepted? then World(t, w.minted[next := w.minted[j]], w.accepted + [j]) else w.(store := t)
    case Logout(j) => w.(store := Revoked(w.store, j))
    case LogoutEverywhere(s) => w.(store := RevokedAll(w.store, s))
  }

  function Run(w: World, es: seq<Event>): World
    decreases |es|
  { if es == [] then w else Step(Run(w, es[..|es| - 1]), es[|es| - 1]) }

  const START := World(Store(0, map[], map[]), map[], [])

  // ---- The index covers every live session ---------------------------------------------------

  /** A live marker is in its owner's index, which lasts at least as long. */
  ghost predicate Covered(t: Store, j: Jti) {
    t.Live(j) ==>
      var m := t.markers[j];
      m.sub in t.index && j in t.index[m.sub].jtis && m.expires <= t.index[m.sub].expires
  }

  ghost predicate AllCovered(t: Store) { forall j :: j in t.markers ==> Covered(t, j) }

  ghost predicate Traced(w: World) {
    && (forall j :: j in w.store.markers ==> j in w.minted && w.minted[j] == w.store.markers[j].sub)
    && (forall s, j :: s in w.store.index && j in w.store.index[s].jtis ==> j in w.minted && w.minted[j] == s)
    && (forall j :: j in w.accepted ==> j in w.minted && j !in w.store.markers)
    && (forall i, j :: 0 <= i < j < |w.accepted| ==> w.accepted[i] != w.accepted[j])
  }

  ghost predicate Inv(w: World) { AllCovered(w.store) && Traced(w) }

  /** A new session with this lifetime would make the index expire before a session of s that is
      still to go on. */
  predicate Shortens(t: Store, s: Sub, ttl: nat) {
    exists k :: k in t.markers && t.Live(k) && t.markers[k].sub == s && t.markers[k].expires > t.clock + ttl
  }

  predicate ShortensAt(w: World, e: Event) {
    Enabled(w, e) &&
    match e
    case Login(s, _, ttl) => Shortens(w.store, s, ttl)
    case Refresh(j, user, stored, _, ttl) => w.store.Live(j) && user && stored && Shortens(Revoked(w.store, j), w.minted[j], ttl)
    case _ => false
  }

  lemma RecordCovers(t: Store, s: Sub, j: Jti, ttl: nat)
    requires AllCovered(t) && j !in t.markers
    ensures AllCovered(Recorded(t, s, j, ttl)) <==> !Shortens(t, s, ttl)
  {
    var t' := Recorded(t, s, j, ttl);
    if k :| k in t.markers && t.Live(k) && t.markers[k].sub == s && t.markers[k].expires > t.clock + ttl {
      assert !Covered(t', k);
    } else {
      forall k | k in t'.markers ensures Covered(t', k) {
        if k != j { assert Covered(t, k); }
      }
    }
  }

  lemma RevokeCovers(t: Store, j: Jti)
    requires AllCovered(t)
    ensures AllCovered(Revoked(t, j)) && Revoked(t, j).markers == t.markers - {j} && Revoked(t, j).clock == t.clock
  {
    var t' := Revoked(t, j);
    forall k | k in t'.markers ensures Covered(t', k) {
      assert Covered(t, k);
    }
  }

  lemma RevokeAllCovers(t: Store, s: Sub)
    requires AllCovered(t)
    ensures AllCovered(RevokedAll(t, s))
    ensures forall j :: RevokedAll(t, s).Live(j) <==> t.Live(j) && j !in t.Members(s)
    ensures forall j :: j in t.markers && t.Live(j) && t.markers[j].sub == s ==> j in t.Members(s)
  {
    var t' := RevokedAll(t, s);
    forall j | j in t.markers ensures Covered(t, j) {}
    forall k | k in t'.markers ensures Covered(t', k) {}
  }

  lemma RevokingIsTraced(w: World, j: Jti)
    requires Traced(w)
    ensures Traced(w.(store := Revoked(w.store, j))) && j !in Revoked(w.store, j).markers
  {}

  lemma RecordingIsTraced(w: World, s: Sub, j: Jti, ttl: nat)
    requires Traced(w) && j !in w.minted
    ensures Traced(w.(store := Recorded(w.store, s, j, ttl), minted := w.minted[j := s]))
    ensures Recorded(w.store, s, j, ttl).markers.Keys == w.store.markers.Keys + {j}
  {}

  lemma StepIsTraced(w: World, e: Event)
    requires Traced(w)
    ensures Traced(Step(w, e))
  {
    hide Revoked, Recorded;
    if Enabled(w, e) {
      match e
      case Tick(n) =>
      case Login(s, j, ttl) => RecordingIsTraced(w, s, j, ttl);
      case Refresh(j, user, stored, next, ttl) =>
        var w1 := w.(store := Revoked(w.store, j));
        RevokingIsTraced(w, j);
        RecordingIsTraced(w1, w.minted[j], next, ttl);
      case Logout(j) => RevokingIsTraced(w, j);
      case LogoutEverywhere(s) =>
    }
  }

  lemma StepIsCovered(w: World, e: Event)
    requires Inv(w)
    ensures AllCovered(Step(w, e).store) <==> !ShortensAt(w, e)
  {
    if Enabled(w, e) {
      match e
      case Tick(n) => forall j | j in w.store.markers ensures Covered(Step(w, e).store, j) { assert Covered(w.store, j); }
      case Login(s, j, ttl) => RecordCovers(w.store, s, j, ttl);
      case Refresh(j, user, stored, next, ttl) =>
        RevokeCovers(w.store, j);
        if w.store.Live(j) && user && stored { RecordCovers(Revoked(w.store, j), w.minted[j], next, ttl); }
      case Logout(j) => RevokeCovers(w.store, j);
      case LogoutEverywhere(s) => RevokeAllCovers(w.store, s);
    }
  }

  /** Every live session is in its user's index until some step shortens an index: constant
      lifetimes never do. */
  lemma StepKeepsInv(w: World, e: Event)
    requires Inv(w)
    ensures Inv(Step(w, e)) <==> !ShortensAt(w, e)
  {
    StepIsTraced(w, e);
    StepIsCovered(w, e);
  }

  /** A run in which every session gets the same lifetime. */
  predicate Constant(es: seq<Event>, ttl: nat) {
    forall i :: 0 <= i < |es| ==> ((es[i].Login? || es[i].Refresh?) ==> es[i].ttl == ttl)
  }

  ghost predicate Bounded(t: Store, ttl: nat) {
    forall j :: j in t.markers ==> t.markers[j].expires <= t.clock + ttl
  }

  lemma {:induction false} RunKeepsInv(es: seq<Event>, ttl: nat)
    requires Constant(es, ttl)
    ensures Inv(Run(START, es)) && Bounded(Run(START, es).store, ttl)
    decreases |es|
  {
    if es != [] {
      var w, e := Run(START, es[..|es| - 1]), es[|es| - 1];
      RunKeepsInv(es[..|es| - 1], ttl);
      StepKeepsInv(w, e);
      assert Bounded(Revoked(w.store, if e.Refresh? then e.j else ""), ttl);
    }
  }

  /** With each handler one step, "log out everywhere" leaves no session of the user alive, and all others
      as they were. */
  lemma EverywhereIsEverywhere(es: seq<Event>, ttl: nat, s: Sub)
    requires Constant(es, ttl)
    ensures var t, t' := Run(START, es).store, Run(START, es + [LogoutEverywhere(s)]).store;
      && t'.Sessions(s) == {}
      && forall u :: u != s ==> t'.Sessions(u) == t.Sessions(u)
  {
    var w := Run(START, es);
    RunKeepsInv(es, ttl);
    RevokeAllCovers(w.store, s);
    assert (es + [LogoutEverywhere(s)])[..|es|] == es;
  }

  // ---- Refreshing ----------------------------------------------------------------------------

  /** Whatever the lifetimes, /refresh accepts each token at most once in every run. */
  lemma {:induction false} EachTokenRefreshesOnce(es: seq<Event>)
    ensures Traced(Run(START, es))
    ensures forall i, j :: 0 <= i < j < |Run(START, es).accepted| ==> Run(START, es).accepted[i] != Run(START, es).accepted[j]
    decreases |es|
  {
    if es != [] {
      EachTokenRefreshesOnce(es[..|es| - 1]);
      StepIsTraced(Run(START, es[..|es| - 1]), es[|es| - 1]);
    }
  }

  lemma RevokedSessions(t: Store, j: Jti, s: Sub)
    ensures Revoked(t, j).Sessions(s) == t.Sessions(s) - {j}
  { assert Revoked(t, j).markers == t.markers - {j}; }

  lemma RecordedSessions(t: Store, u: Sub, j: Jti, ttl: nat, s: Sub)
    requires j !in t.markers
    ensures Recorded(t, u, j, ttl).Sessions(s) == t.Sessions(s) + if u == s && ttl > 0 then {j} else {}
  {
    var t' := Recorded(t, u, j, ttl);
    forall k ensures k in t'.Sessions(s) <==> k in t.Sessions(s) || (k == j && u == s && ttl > 0) {}
  }

  /** It gives one session for one: nobody's number of live sessions grows, and an accepted
      refresh keeps its user's, with the old id replaced by the new one. */
  lemma RefreshGivesOneForOne(es: seq<Event>, j: Jti, user: bool, stored: bool, next: Jti, ttl: nat, s: Sub)
    requires Enabled(Run(START, es), Refresh(j, user, stored, next, ttl))
    ensures var w := Run(START, es);
      var w' := Step(w, Refresh(j, user, stored, next, ttl));
      && |w'.store.Sessions(s)| <= |w.store.Sessions(s)|
      && (w'.accepted == w.accepted + [j] && ttl > 0 && s == w.minted[j] ==>
            w'.store.Sessions(s) == w.store.Sessions(s) - {j} + {next} && j in w.store.Sessions(s))
  {
    var w := Run(START, es);
    EachTokenRefreshesOnce(es);
    var a := w.store.Sessions(s);
    if w.store.Live(j) {
      RevokedSessions(w.store, j, s);
      RecordedSessions(Revoked(w.store, j), w.minted[j], next, ttl, s);
      assert s == w.minted[j] ==> j in a;
      Subset(a - {j}, a);
    }
  }

  lemma Subset(a: set<Jti>, b: set<Jti>)
    requires a <= b
    ensures |a| <= |b|
  { assert b == a + (b - a); }

  /** A token that is not live is never live again. */
  lemma {:induction false} NeverLiveAgain(w: World, es: seq<Event>, j: Jti)
    requires j in w.minted && !w.store.Live(j)
    ensures j in Run(w, es).minted && !Run(w, es).store.Live(j)
    decreases |es|
  {
    if es != [] { NeverLiveAgain(w, es[..|es| - 1], j); }
  }

  /** With each handler one step, after "log out everywhere" no token minted for the user before is ever
      accepted again. */
  lemma LogoutEverywhereIsFinal(es: seq<Event>, ttl: nat, s: Sub, later: seq<Event>, j: Jti, user: bool, stored: bool,
                                next: Jti, life: nat)
    requires Constant(es, ttl)
    requires var w := Run(START, es); j in w.minted && w.minted[j] == s
    ensures var w := Run(Run(START, es + [LogoutEverywhere(s)]), later);
      Step(w, Refresh(j, user, stored, next, life)) == w
  {
    var w := Run(START, es);
    RunKeepsInv(es, ttl);
    RevokeAllCovers(w.store, s);
    assert (es + [LogoutEverywhere(s)])[..|es|] == es;
    NeverLiveAgain(Step(w, LogoutEverywhere(s)), later, j);
  }

  // ---- How long a session lives --------------------------------------------------------------

  /** The step gives s a session with id j and this lifetime: a login, or a refresh that is accepted. */
  predicate Begins(w: World, e: Event, s: Sub, j: Jti, ttl: nat) {
    || e == Login(s, j, ttl)
    || (e.Refresh? && e.next == j && e.ttl == ttl && e.user && e.stored && e.j in w.minted && w.minted[e.j] == s && w.store.Live(e.j))
  }

  /** What ends it early: its refresh, its logout, or its user's logout everywhere. */
  predicate Closes(e: Event, s: Sub, j: Jti) { e == Logout(j) || e == LogoutEverywhere(s) || (e.Refresh? && e.j == j) }

  ghost predicate Holds(w: World, s: Sub, j: Jti, expires: int) {
    Traced(w) && j in w.store.markers && w.store.markers[j] == Marker(s, expires)
  }

  lemma HoldsOn(w: World, e: Event, s: Sub, j: Jti, expires: int)
    requires Holds(w, s, j, expires) && !Closes(e, s, j)
    ensures Holds(Step(w, e), s, j, expires)
  {
    StepIsTraced(w, e);
    assert w.minted[j] == s;
  }

  lemma {:induction false} HoldsForLong(w: World, later: seq<Event>, s: Sub, j: Jti, expires: int)
    requires Holds(w, s, j, expires) && forall e :: e in later ==> !Closes(e, s, j)
    ensures Holds(Run(w, later), s, j, expires)
    decreases |later|
  {
    hide Holds, Closes, Step;
    if later != [] {
      HoldsForLong(w, later[..|later| - 1], s, j, expires);
      HoldsOn(Run(w, later[..|later| - 1]), later[|later| - 1], s, j, expires);
    }
  }

  /** In every run a session lives for exactly its lifetime, unless it is refreshed or logged out: until
      then, and no longer, its token is accepted, while the user exists and the new one can be stored. */
  lemma ASessionLivesItsLifetime(es: seq<Event>, e: Event, s: Sub, j: Jti, ttl: nat, later: seq<Event>, next: Jti, life: nat)
    requires Enabled(Run(START, es), e) && Begins(Run(START, es), e, s, j, ttl)
    requires forall x :: x in later ==> !Closes(x, s, j)
    requires next !in Run(Step(Run(START, es), e), later).minted
    ensures var w := Run(Step(Run(START, es), e), later);
      && (w.store.Live(j) <==> w.store.clock < Run(START, es).store.clock + ttl)
      && (Step(w, Refresh(j, true, true, next, life)).accepted ==
            if w.store.clock < Run(START, es).store.clock + ttl then w.accepted + [j] else w.accepted)
  {
    var w := Run(START, es);
    EachTokenRefreshesOnce(es);
    StepIsTraced(w, e);
    HoldsForLong(Step(w, e), later, s, j, w.store.clock + ttl);
  }

  /** Revoking takes the id out of its owner's index and out of no other, unless the marker names no owner. */
  lemma RevokingUnindexes(t: Store, j: Jti, s: Sub)
    ensures Revoked(t, j).Members(s) ==
      if t.Live(j) && t.markers[j].sub == s && s !in ["", "1"] then t.Members(s) - {j} else t.Members(s)
  {}

  lemma StepTo(es: seq<Event>, w: World, e: Event) returns (es': seq<Event>, w': World)
    requires Run(START, es) == w
    ensures w' == Step(w, e) && Run(START, es') == w'
  {
    es', w' := es + [e], Step(w, e);
    assert es'[..|es|] == es;
  }

  /** With lifetimes that vary it is not: a shorter session takes the index down with it, and a
      longer one outlives "log out everywhere". */
  lemma AShorterLifetimeLosesASession(s: Sub) returns (es: seq<Event>)
    ensures Run(START, es + [LogoutEverywhere(s)]).store.Sessions(s) == {"a"}
  {
    var w;
    es, w := [], START;
    es, w := StepTo(es, w, Login(s, "a", 3));
    es, w := StepTo(es, w, Login(s, "b", 1));
    es, w := StepTo(es, w, Tick(2));
    assert (es + [LogoutEverywhere(s)])[..|es|] == es;
  }
}
