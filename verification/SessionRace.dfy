/** /refresh in its three calls: is_live, revoke_jti and the recording of the new id. What two requests
    with one token come to. */
module SessionRace {
  import opened Sessions

  type Req = string

  /** A request under way: it has found its token live, or has also revoked it. */
  datatype Handler = Passed(j: Jti) | Rotated(j: Jti)

  datatype State = State(store: Store, minted: map<Jti, Sub>, handlers: map<Req, Handler>, accepted: seq<Jti>) {
    predicate Passing(r: Req) { r in handlers && handlers[r].Passed? }
    predicate Minting(r: Req) { r in handlers && handlers[r].Rotated? }
  }

  datatype Event =
    | Tick(seconds: nat)
    | Login(s: Sub, j: Jti, ttl: nat)
    | Logout(j: Jti)
    | LogoutEverywhere(s: Sub)
    | Check(r: Req, j: Jti)
    | Gone(r: Req)
    | Rotate(r: Req)
    | Mint(r: Req, stored: bool, next: Jti, ttl: nat)
    | Die(r: Req)

  predicate Enabled(h: State, e: Event) {
    match e
    case Tick(_) => true
    case Login(_, j, _) => j !in h.minted
    case Logout(j) => j in h.minted
    case LogoutEverywhere(_) => true
    case Check(r, j) => r !in h.handlers && j in h.minted
    case Gone(r) => h.Passing(r)
    case Rotate(r) => h.Passing(r)
    case Mint(r, _, next, _) => h.Minting(r) && h.handlers[r].j in h.minted && next !in h.minted
    case Die(r) => r in h.handlers
  }

  /** A refused Check ends its request; so do Gone (the user no longer exists) and a Mint whose marker
      cannot be written. */
  function Step(h: State, e: Event): State {
    if !Enabled(h, e) then h else
    match e
    case Tick(n) => h.(store := h.store.(clock := h.store.clock + n))
    case Login(s, j, ttl) => h.(store := Recorded(h.store, s, j, ttl), minted := h.minted[j := s])
    case Logout(j) => h.(store := Revoked(h.store, j))
    case LogoutEverywhere(s) => h.(store := RevokedAll(h.store, s))
    case Check(r, j) => if h.store.Live(j) then h.(handlers := h.handlers[r := Passed(j)]) else h
    case Gone(r) => h.(store := Revoked(h.store, h.handlers[r].j), handlers := h.handlers - {r})
    case Rotate(r) =>
      var j := h.handlers[r].j;
      h.(store := Revoked(h.store, j), handlers := h.handlers[r := Rotated(j)])
    case Mint(r, stored, next, ttl) =>
      var j := h.handlers[r].j;
      if !stored then h.(handlers := h.handlers - {r})
      else State(Recorded(h.store, h.minted[j], next, ttl), h.minted[next := h.minted[j]],
                 h.handlers - {r}, h.accepted + [j])
    case Die(r) => h.(handlers := h.handlers - {r})
  }

  function Run(h: State, es: seq<Event>): State
    decreases |es|
  { if es == [] then h else Step(Run(h, es[..|es| - 1]), es[|es| - 1]) }

  const START := State(Sessions.START.store, map[], map[], [])

  /** The calls of one request with nothing between are the handler as a whole. */
  lemma TogetherTheyAreTheRefresh(h: State, r: Req, j: Jti, user: bool, stored: bool, next: Jti, ttl: nat)
    requires r !in h.handlers && j in h.minted && next !in h.minted
    ensures var w := Sessions.Step(World(h.store, h.minted, h.accepted), Refresh(j, user, stored, next, ttl));
      var h1 := Step(h, Check(r, j));
      var h' := if !user then Step(h1, Gone(r)) else Step(Step(h1, Rotate(r)), Mint(r, stored, next, ttl));
      h' == State(w.store, w.minted, h.handlers, w.accepted)
  {
    if h.store.Live(j) {
      assert h.handlers[r := Passed(j)] - {r} == h.handlers;
      assert h.handlers[r := Passed(j)][r := Rotated(j)] - {r} == h.handlers;
    }
  }

  // ---- When a token is accepted twice --------------------------------------------------------

  /** A second request finds a token live that a first has found live and not revoked yet. */
  predicate Overlaps(h: State, e: Event) {
    Enabled(h, e) && e.Check? && h.store.Live(e.j) && exists r :: r in h.handlers && h.handlers[r] == Passed(e.j)
  }

  predicate Distinct(js: seq<Jti>) { forall i, j :: 0 <= i < j < |js| ==> js[i] != js[j] }

  /** A token's id is spent once it is revoked for good. */
  predicate Spent(h: State, j: Jti) { j in h.minted && j !in h.store.markers }

  predicate HandlerOk(h: State, r: Req)
    requires r in h.handlers
  {
    var x := h.handlers[r];
    x.j in h.minted && x.j !in h.accepted && (x.Rotated? ==> Spent(h, x.j))
  }

  /** At most one request is at work on any token, and none on a token that was accepted. */
  predicate Inv(h: State) {
    && h.store.markers.Keys <= h.minted.Keys
    && (forall j :: j in h.accepted ==> Spent(h, j))
    && Distinct(h.accepted)
    && (forall r :: r in h.handlers ==> HandlerOk(h, r))
    && (forall r, q :: r in h.handlers && q in h.handlers && r != q ==> h.handlers[r].j != h.handlers[q].j)
  }

  lemma SpentStays(h: State, e: Event, j: Jti)
    requires Spent(h, j)
    ensures Spent(Step(h, e), j)
  {}

  lemma OverlapBreaks(h: State, e: Event)
    requires Overlaps(h, e)
    ensures !Inv(Step(h, e))
  {
    var r :| r in h.handlers && h.handlers[r] == Passed(e.j);
    assert r != e.r && Step(h, e).handlers[r].j == Step(h, e).handlers[e.r].j;
  }

  lemma AcceptedStaySpent(h: State, e: Event)
    requires Inv(h)
    ensures var h' := Step(h, e);
      h'.store.markers.Keys <= h'.minted.Keys && Distinct(h'.accepted) && forall j :: j in h'.accepted ==> Spent(h', j)
  {
    var h' := Step(h, e);
    forall j | Spent(h, j) ensures Spent(h', j) { SpentStays(h, e, j); }
    if e.Mint? && Enabled(h, e) { assert HandlerOk(h, e.r); }
  }

  lemma HandlersStayOk(h: State, e: Event)
    requires Inv(h) && !Overlaps(h, e)
    ensures var hs := Step(h, e).handlers;
      && (forall r :: r in hs ==> HandlerOk(Step(h, e), r))
      && forall r, q :: r in hs && q in hs && r != q ==> hs[r].j != hs[q].j
  {
    var h' := Step(h, e);
    forall j | Spent(h, j) ensures Spent(h', j) { SpentStays(h, e, j); }
    assert forall j :: j in h'.accepted ==> j in h.accepted || (e.Mint? && Enabled(h, e) && j == h.handlers[e.r].j);
    forall r | r in h'.handlers ensures HandlerOk(h', r) {
      if r in h.handlers { assert HandlerOk(h, r); }
    }
  }

  lemma StepKeepsInv(h: State, e: Event)
    requires Inv(h)
    ensures Inv(Step(h, e)) <==> !Overlaps(h, e)
  {
    if Overlaps(h, e) {
      OverlapBreaks(h, e);
    } else {
      AcceptedStaySpent(h, e);
      HandlersStayOk(h, e);
    }
    hide Step, Overlaps;
  }

  /** No step of the run is an overlap. */
  predicate Orderly(h: State, es: seq<Event>)
    decreases |es|
  { es == [] || (Orderly(h, es[..|es| - 1]) && !Overlaps(Run(h, es[..|es| - 1]), es[|es| - 1])) }

  lemma {:induction false} OrderlyRunsKeepInv(h: State, es: seq<Event>)
    requires Inv(h) && Orderly(h, es)
    ensures Inv(Run(h, es))
    decreases |es|
  {
    if es != [] {
      OrderlyRunsKeepInv(h, es[..|es| - 1]);
      StepKeepsInv(Run(h, es[..|es| - 1]), es[|es| - 1]);
    }
  }

  /** From the start, in every run in which no two requests with one token overlap between is_live and
      revoke_jti, each token is accepted at most once. */
  lemma AcceptedOnceWithoutOverlap(es: seq<Event>)
    requires Orderly(START, es)
    ensures Distinct(Run(START, es).accepted)
  { OrderlyRunsKeepInv(START, es); }

  lemma {:induction false} Longer(js: set<Jti>) returns (n: nat)
    ensures forall j :: j in js ==> |j| < n
  {
    n := 0;
    if js != {} {
      var j :| j in js;
      n := Longer(js - {j});
      n := n + |j| + 1;
    }
  }

  lemma Fresh(m: map<Jti, Sub>) returns (j: Jti)
    ensures j !in m
  {
    var n := Longer(m.Keys);
    j := seq(n, _ => 'x');
  }

  ghost predicate SomeDouble(h: State) { exists es :: Orderly(h, es) && !Distinct(Run(h, es).accepted) }

  lemma Then(h: State, es: seq<Event>, e: Event) returns (es': seq<Event>)
    requires Orderly(h, es) && !e.Check?
    ensures Orderly(h, es') && Run(h, es') == Step(Run(h, es), e)
  {
    es' := es + [e];
    assert es'[..|es|] == es;
  }

  /** Both requests go on to their ends. */
  lemma BothFinish(h: State, r: Req, q: Req, j: Jti)
    requires r != q && r in h.handlers && q in h.handlers && h.handlers[r] == h.handlers[q] == Passed(j) && j in h.minted
    ensures SomeDouble(h)
  {
    var a := Fresh(h.minted);
    var b := Fresh(h.minted[a := h.minted[j]]);
    var es := Then(h, [], Rotate(r));
    var h1 := Run(h, es);
    assert h1.handlers[r] == Rotated(j) && h1.handlers[q] == Passed(j) && h1.minted == h.minted;
    es := Then(h, es, Mint(r, true, a, 0));
    var h2 := Run(h, es);
    assert h2.accepted == h.accepted + [j] && h2.handlers[q] == Passed(j) && h2.minted == h.minted[a := h.minted[j]];
    es := Then(h, es, Rotate(q));
    var h3 := Run(h, es);
    es := Then(h, es, Mint(q, true, b, 0));
    var h4 := Run(h, es);
    assert h4.accepted == h.accepted + [j] + [j];
    assert h4.accepted[|h.accepted|] == h4.accepted[|h.accepted| + 1];
  }

  /** While no token has two requests at work, a step makes it possible for one to be accepted twice,
      without a further overlap, if and only if it is an overlap. */
  lemma AnOverlapIsExactlyWhatDoubles(h: State, e: Event)
    requires Inv(h)
    ensures SomeDouble(Step(h, e)) <==> Overlaps(h, e)
  {
    var h' := Step(h, e);
    if Overlaps(h, e) {
      var r :| r in h.handlers && h.handlers[r] == Passed(e.j);
      BothFinish(h', r, e.r, e.j);
    } else {
      StepKeepsInv(h, e);
      forall es | Orderly(h', es) ensures Distinct(Run(h', es).accepted) { OrderlyRunsKeepInv(h', es); }
    }
  }

  lemma StepTo(es: seq<Event>, h: State, e: Event) returns (es': seq<Event>, h': State)
    requires Run(START, es) == h
    ensures es' == es + [e] && h' == Step(h, e) && Run(START, es') == h'
  {
    es', h' := es + [e], Step(h, e);
    assert es'[..|es|] == es;
  }

  lemma BothPass(s: Sub, ttl: nat) returns (es: seq<Event>)
    requires ttl > 0
    ensures Run(START, es) == State(Store(0, map["a" := Marker(s, ttl)], map[s := Index({"a"}, ttl)]),
                                    map["a" := s], map["1" := Passed("a"), "2" := Passed("a")], [])
  {
    var h;
    es, h := [], START;
    es, h := StepTo(es, h, Event.Login(s, "a", ttl));
    assert {} + {"a"} == {"a"};
    assert h.store.markers == map["a" := Marker(s, ttl)] && h.store.index == map[s := Index({"a"}, ttl)];
    es, h := StepTo(es, h, Check("1", "a"));
    es, h := StepTo(es, h, Check("2", "a"));
  }

  lemma BothRotate(s: Sub, ttl: nat) returns (es: seq<Event>)
    requires ttl > 0
    ensures Run(START, es) == State(Store(0, map[], Run(START, es).store.index), map["a" := s],
                                    map["1" := Rotated("a"), "2" := Rotated("a")], [])
  {
    es := BothPass(s, ttl);
    var h := Run(START, es);
    es, h := StepTo(es, h, Rotate("1"));
    assert h.store.markers == map[] && !h.store.Live("a");
    es, h := StepTo(es, h, Rotate("2"));
  }

  /** The run: one login, two requests with its token, and two sessions live at the end. */
  lemma OneSessionBecomesTwo(s: Sub, ttl: nat) returns (es: seq<Event>)
    requires ttl > 0
    ensures Run(START, es).accepted == ["a", "a"] && Run(START, es).store.Sessions(s) == {"b", "c"}
  {
    es := BothRotate(s, ttl);
    var h := Run(START, es);
    es, h := StepTo(es, h, Mint("1", true, "b", ttl));
    es, h := StepTo(es, h, Mint("2", true, "c", ttl));
    assert h.store.markers == map["b" := Marker(s, ttl), "c" := Marker(s, ttl)];
  }

  // ---- What survives "log out everywhere" ----------------------------------------------------

  /** Markers and indexes name the owners their tokens were minted for. */
  ghost predicate Owned(h: State) {
    && (forall j :: j in h.store.markers ==> j in h.minted && h.minted[j] == h.store.markers[j].sub)
    && (forall s, j :: s in h.store.index && j in h.store.index[s].jtis ==> j in h.minted && h.minted[j] == s)
    && (forall r :: r in h.handlers ==> h.handlers[r].j in h.minted)
  }

  lemma RevokingKeepsOwned(h: State, j: Jti)
    requires Owned(h)
    ensures Owned(h.(store := Revoked(h.store, j)))
  {}

  lemma RecordingKeepsOwned(h: State, s: Sub, j: Jti, ttl: nat)
    requires Owned(h) && j !in h.minted
    ensures Owned(h.(store := Recorded(h.store, s, j, ttl), minted := h.minted[j := s]))
  {}

  lemma HandlersKeepOwned(h: State, handlers: map<Req, Handler>)
    requires Owned(h) && forall r :: r in handlers ==> handlers[r].j in h.minted
    ensures Owned(h.(handlers := handlers))
  {}

  lemma ClockAndSweepKeepOwned(h: State, seconds: nat, s: Sub)
    requires Owned(h)
    ensures Owned(h.(store := h.store.(clock := h.store.clock + seconds))) && Owned(h.(store := RevokedAll(h.store, s)))
  {}

  lemma HandlersAreOwned(h: State)
    requires Owned(h)
    ensures forall r :: r in h.handlers ==> h.handlers[r].j in h.minted
  {}

  lemma StepKeepsOwned(h: State, e: Event)
    requires Owned(h)
    ensures Owned(Step(h, e))
  {
    if Enabled(h, e) {
      hide Revoked, Recorded, RevokedAll, Owned;
      HandlersAreOwned(h);
      match e
      case Tick(n) => ClockAndSweepKeepOwned(h, n, "");
      case Login(s, j, ttl) => RecordingKeepsOwned(h, s, j, ttl);
      case Logout(j) => RevokingKeepsOwned(h, j);
      case LogoutEverywhere(s) => ClockAndSweepKeepOwned(h, 0, s);
      case Check(r, j) => HandlersKeepOwned(h, h.handlers[r := Passed(j)]);
      case Gone(r) =>
        RevokingKeepsOwned(h, h.handlers[r].j);
        HandlersKeepOwned(h.(store := Revoked(h.store, h.handlers[r].j)), h.handlers - {r});
      case Rotate(r) =>
        RevokingKeepsOwned(h, h.handlers[r].j);
        HandlersKeepOwned(h.(store := Revoked(h.store, h.handlers[r].j)), h.handlers[r := Rotated(h.handlers[r].j)]);
      case Mint(r, stored, next, ttl) =>
        var h1 := h.(handlers := h.handlers - {r}, accepted := h.accepted + if stored then [h.handlers[r].j] else []);
        HandlersKeepOwned(h, h.handlers - {r});
        AcceptingKeepsOwned(h.(handlers := h.handlers - {r}), h1.accepted);
        RecordingKeepsOwned(h1, h.minted[h.handlers[r].j], next, ttl);
        if !stored { assert h.accepted + [] == h.accepted; }
      case Die(r) => HandlersKeepOwned(h, h.handlers - {r});
    }
  }

  lemma AcceptingKeepsOwned(h: State, accepted: seq<Jti>)
    requires Owned(h)
    ensures Owned(h.(accepted := accepted))
  {}

  /** Every session of the run gets the same lifetime. */
  predicate Constant(es: seq<Event>, ttl: nat) {
    forall i :: 0 <= i < |es| ==> ((es[i].Login? || es[i].Mint?) ==> es[i].ttl == ttl)
  }

  /** The index covers every live session, and none outlasts a new one. */
  ghost predicate Complete(t: Store, ttl: nat) { AllCovered(t) && Bounded(t, ttl) }

  lemma RevokingKeepsComplete(t: Store, j: Jti, ttl: nat)
    requires Complete(t, ttl)
    ensures Complete(Revoked(t, j), ttl)
  { RevokeCovers(t, j); }

  lemma RecordingKeepsComplete(t: Store, s: Sub, j: Jti, ttl: nat)
    requires Complete(t, ttl) && j !in t.markers
    ensures Complete(Recorded(t, s, j, ttl), ttl)
  { RecordCovers(t, s, j, ttl); }

  lemma OthersKeepComplete(t: Store, seconds: nat, s: Sub, ttl: nat)
    requires Complete(t, ttl)
    ensures Complete(t.(clock := t.clock + seconds), ttl) && Complete(RevokedAll(t, s), ttl)
  {
    RevokeAllCovers(t, s);
    forall j | j in t.markers ensures Covered(t.(clock := t.clock + seconds), j) { assert Covered(t, j); }
  }

  lemma StepKeepsComplete(h: State, e: Event, ttl: nat)
    requires Owned(h) && Complete(h.store, ttl) && ((e.Login? || e.Mint?) ==> e.ttl == ttl)
    ensures Complete(Step(h, e).store, ttl)
  {
    if Enabled(h, e) {
      hide Complete, Revoked, Recorded, RevokedAll;
      match e
      case Tick(n) => OthersKeepComplete(h.store, n, "", ttl);
      case Login(s, j, life) => RecordingKeepsComplete(h.store, s, j, ttl);
      case Logout(j) => RevokingKeepsComplete(h.store, j, ttl);
      case LogoutEverywhere(s) => OthersKeepComplete(h.store, 0, s, ttl);
      case Gone(r) => RevokingKeepsComplete(h.store, h.handlers[r].j, ttl);
      case Rotate(r) => RevokingKeepsComplete(h.store, h.handlers[r].j, ttl);
      case Mint(r, stored, next, life) => RecordingKeepsComplete(h.store, h.minted[h.handlers[r].j], next, ttl);
      case _ =>
    }
  }

  lemma {:induction false} ConstantRunsAreComplete(es: seq<Event>, ttl: nat)
    requires Constant(es, ttl)
    ensures Owned(Run(START, es)) && Complete(Run(START, es).store, ttl)
    decreases |es|
  {
    if es != [] {
      ConstantRunsAreComplete(es[..|es| - 1], ttl);
      StepKeepsOwned(Run(START, es[..|es| - 1]), es[|es| - 1]);
      StepKeepsComplete(Run(START, es[..|es| - 1]), es[|es| - 1], ttl);
    }
  }

  /** A request with a token of s is under way: it has found it live, whether it has revoked it or not. */
  predicate UnderWay(h: State, s: Sub) {
    exists r :: r in h.handlers && h.handlers[r].j in h.minted && h.minted[h.handlers[r].j] == s
  }

  /** No session of s is live and no request with a token of s under way. */
  ghost predicate Out(h: State, s: Sub) {
    (forall j :: j in h.store.markers && h.store.Live(j) ==> h.store.markers[j].sub != s) && !UnderWay(h, s)
  }

  predicate WithoutLogin(es: seq<Event>, s: Sub) { forall i :: 0 <= i < |es| ==> !(es[i].Login? && es[i].s == s) }

  /** From h, some continuation in which s does not log in again has a live session of s. */
  ghost predicate MayComeBack(h: State, s: Sub) {
    exists es :: WithoutLogin(es, s) && Run(h, es).store.Sessions(s) != {}
  }

  lemma RevokingLeavesOut(h: State, s: Sub, j: Jti)
    requires Out(h, s)
    ensures Out(h.(store := Revoked(h.store, j)), s)
  {}

  lemma RecordingLeavesOut(h: State, s: Sub, u: Sub, j: Jti, ttl: nat)
    requires Owned(h) && Out(h, s) && u != s && j !in h.minted
    ensures Out(h.(store := Recorded(h.store, u, j, ttl), minted := h.minted[j := u]), s)
  {}

  lemma FewerHandlersStayOut(h: State, s: Sub, r: Req)
    requires Out(h, s)
    ensures Out(h.(handlers := h.handlers - {r}), s)
  {}

  lemma StaysOut(h: State, e: Event, s: Sub)
    requires Owned(h) && Out(h, s) && !(e.Login? && e.s == s)
    ensures Out(Step(h, e), s)
  {
    if Enabled(h, e) {
      hide Revoked, Recorded;
      match e
      case Login(u, j, ttl) => RecordingLeavesOut(h, s, u, j, ttl);
      case Logout(j) => RevokingLeavesOut(h, s, j);
      case Gone(r) =>
        RevokingLeavesOut(h, s, h.handlers[r].j);
        FewerHandlersStayOut(h.(store := Revoked(h.store, h.handlers[r].j)), s, r);
      case Rotate(r) => RevokingLeavesOut(h, s, h.handlers[r].j);
      case Mint(r, stored, next, ttl) =>
        var u := h.minted[h.handlers[r].j];
        assert u != s;
        FewerHandlersStayOut(h, s, r);
        RecordingLeavesOut(h.(handlers := h.handlers - {r}), s, u, next, ttl);
      case Die(r) => FewerHandlersStayOut(h, s, r);
      case _ =>
    }
  }

  lemma {:induction false} RunStaysOut(h: State, es: seq<Event>, s: Sub)
    requires Owned(h) && Out(h, s) && WithoutLogin(es, s)
    ensures Owned(Run(h, es)) && Out(Run(h, es), s)
    decreases |es|
  {
    if es != [] {
      var front, e := es[..|es| - 1], es[|es| - 1];
      RunStaysOut(h, front, s);
      StepKeepsOwned(Run(h, front), e);
      StaysOut(Run(h, front), e, s);
    }
  }

  /** What a mint does: the old token is accepted, and a new session of its user is live. */
  ghost predicate Minted(h: State, g: State, j: Jti) {
    && j in h.minted && g.accepted == h.accepted + [j] && exists next :: next in g.store.Sessions(h.minted[j])
  }

  lemma MintingMints(h: State, r: Req, next: Jti)
    requires h.Minting(r) && h.handlers[r].j in h.minted && next !in h.minted
    ensures Minted(h, Step(h, Mint(r, true, next, 1)), h.handlers[r].j)
  {
    var g := Step(h, Mint(r, true, next, 1));
    assert g.store.Live(next) && g.store.markers[next].sub == h.minted[h.handlers[r].j];
    assert next in g.store.Sessions(h.minted[h.handlers[r].j]);
  }

  lemma RotatingRotates(h: State, r: Req)
    requires h.Passing(r)
    ensures var g := Step(h, Rotate(r)); g.Minting(r) && g.handlers[r].j == h.handlers[r].j && g.minted == h.minted && g.accepted == h.accepted
  {}

  lemma On(h: State, es: seq<Event>, e: Event)
    ensures Run(h, es + [e]) == Step(Run(h, es), e)
  { assert (es + [e])[..|es|] == es; }

  /** A request under way goes on to its end, with no login meanwhile. */
  lemma ItFinishes(h: State, r: Req) returns (es: seq<Event>)
    requires r in h.handlers && h.handlers[r].j in h.minted
    ensures Minted(h, Run(h, es), h.handlers[r].j) && forall s :: WithoutLogin(es, s)
  {
    hide Step, Minted;
    var next := Fresh(h.minted);
    var e := Mint(r, true, next, 1);
    if h.handlers[r].Passed? {
      var h1 := Step(h, Rotate(r));
      RotatingRotates(h, r);
      On(h, [], Rotate(r));
      On(h, [] + [Rotate(r)], e);
      MintingMints(h1, r, next);
      es := [] + [Rotate(r)] + [e];
      SameMinted(h, h1, Run(h, es), h.handlers[r].j);
    } else {
      On(h, [], e);
      MintingMints(h, r, next);
      es := [] + [e];
    }
  }

  lemma SameMinted(h: State, h1: State, g: State, j: Jti)
    requires h1.minted == h.minted && h1.accepted == h.accepted && Minted(h1, g, j)
    ensures Minted(h, g, j)
  {}

  /** Right after "log out everywhere" no session of the user is live, whatever requests are under way;
      and one can come back without a new login if and only if a refresh with one of the user's tokens
      is under way. */
  lemma EverywhereLastsUnlessUnderWay(es: seq<Event>, ttl: nat, s: Sub)
    requires Constant(es, ttl)
    ensures var h := Run(START, es);
      var h' := Step(h, Event.LogoutEverywhere(s));
      h'.store.Sessions(s) == {} && (MayComeBack(h', s) <==> UnderWay(h, s))
  {
    var h := Run(START, es);
    var h' := Step(h, Event.LogoutEverywhere(s));
    ConstantRunsAreComplete(es, ttl);
    RevokeAllCovers(h.store, s);
    StepKeepsOwned(h, Event.LogoutEverywhere(s));
    if UnderWay(h, s) {
      var r :| r in h.handlers && h.handlers[r].j in h.minted && h.minted[h.handlers[r].j] == s;
      var more := ItFinishes(h', r);
      assert WithoutLogin(more, s) && Run(h', more).store.Sessions(s) != {};
    } else {
      assert Out(h', s);
      forall more | WithoutLogin(more, s) ensures Run(h', more).store.Sessions(s) == {} { RunStaysOut(h', more, s); }
    }
  }

  /** From h, some continuation accepts a token that had been minted for s by then. */
  ghost predicate MayAcceptOld(h: State, s: Sub) {
    exists es, n :: |h.accepted| <= n < |Run(h, es).accepted| && Old(h, s, Run(h, es).accepted[n])
  }

  predicate Old(h: State, s: Sub, j: Jti) { j in h.minted && h.minted[j] == s }

  /** No token that h has minted for s is live or in a request's hands, nor has one been accepted since. */
  ghost predicate Shut(h: State, g: State, s: Sub) {
    && h.minted.Keys <= g.minted.Keys && |h.accepted| <= |g.accepted|
    && (forall j :: Old(h, s, j) ==> !g.store.Live(j))
    && (forall r :: r in g.handlers ==> !Old(h, s, g.handlers[r].j))
    && (forall n :: |h.accepted| <= n < |g.accepted| ==> !Old(h, s, g.accepted[n]))
  }

  lemma NeverLiveAgain(g: State, e: Event, j: Jti)
    requires j in g.minted && !g.store.Live(j)
    ensures !Step(g, e).store.Live(j)
  {}

  lemma StaysShut(h: State, g: State, e: Event, s: Sub)
    requires Shut(h, g, s)
    ensures Shut(h, Step(g, e), s)
  {
    var g' := Step(g, e);
    forall j | Old(h, s, j) ensures !g'.store.Live(j) { NeverLiveAgain(g, e, j); }
    hide Recorded, Revoked, RevokedAll;
    assert forall n :: |g.accepted| <= n < |g'.accepted| ==> e.Mint? && e.r in g.handlers && g'.accepted[n] == g.handlers[e.r].j;
  }

  lemma {:induction false} RunStaysShut(h: State, es: seq<Event>, s: Sub)
    requires Shut(h, h, s)
    ensures Shut(h, Run(h, es), s)
    decreases |es|
  {
    if es != [] {
      RunStaysShut(h, es[..|es| - 1], s);
      StaysShut(h, Run(h, es[..|es| - 1]), es[|es| - 1], s);
    }
  }

  /** After "log out everywhere" some continuation accepts a token minted for the user before, whatever
      logins there are, if and only if a refresh with one of the user's tokens is under way. */
  lemma LogoutEverywhereIsFinalUnlessUnderWay(es: seq<Event>, ttl: nat, s: Sub)
    requires Constant(es, ttl)
    ensures var h := Run(START, es); MayAcceptOld(Step(h, Event.LogoutEverywhere(s)), s) <==> UnderWay(h, s)
  {
    var h := Run(START, es);
    var h' := Step(h, Event.LogoutEverywhere(s));
    ConstantRunsAreComplete(es, ttl);
    RevokeAllCovers(h.store, s);
    if UnderWay(h, s) {
      var r :| r in h.handlers && h.handlers[r].j in h.minted && h.minted[h.handlers[r].j] == s;
      var more := ItFinishes(h', r);
      assert Old(h', s, Run(h', more).accepted[|h'.accepted|]);
    } else {
      assert Shut(h', h', s);
      forall more, n | |h'.accepted| <= n < |Run(h', more).accepted| ensures !Old(h', s, Run(h', more).accepted[n]) {
        RunStaysShut(h', more, s);
      }
    }
  }

  lemma PassedThenOut(s: Sub, ttl: nat) returns (es: seq<Event>)
    requires ttl > 0
    ensures Constant(es, ttl)
    ensures var h := Run(START, es);
      && h.store.markers == map[] && h.store.clock == 0 && h.minted == map["a" := s]
      && h.handlers == map["1" := Passed("a")] && h.accepted == []
  {
    var h;
    es, h := [], START;
    es, h := StepTo(es, h, Event.Login(s, "a", ttl));
    assert {} + {"a"} == {"a"};
    assert h.store.markers == map["a" := Marker(s, ttl)] && h.store.index == map[s := Index({"a"}, ttl)];
    es, h := StepTo(es, h, Check("1", "a"));
    es, h := StepTo(es, h, Event.LogoutEverywhere(s));
    assert h.store.markers == map[];
  }

  /** The run: a refresh passes the liveness test, its user logs out everywhere, and then it goes on: its
      token is accepted and a new session is live. */
  lemma ARefreshOutlivesLogoutEverywhere(s: Sub, ttl: nat) returns (es: seq<Event>)
    requires ttl > 0
    ensures Constant(es, ttl)
    ensures Run(START, es).accepted == ["a"] && Run(START, es).store.Sessions(s) == {"b"}
  {
    es := PassedThenOut(s, ttl);
    var h := Run(START, es);
    es, h := StepTo(es, h, Rotate("1"));
    assert h.store.markers == map[];
    es, h := StepTo(es, h, Mint("1", true, "b", ttl));
    assert h.store.markers == map["b" := Marker(s, ttl)];
  }
}
