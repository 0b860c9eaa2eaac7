/** Schema migrations at boot. Any number of instances start at once over one database and take
    turns by an advisory lock; a migration runs in a transaction, or, when its file says so, in
    autocommit, where its statement and its row in the table are two steps. */
module Migrations {
  import opened Wrappers

  type Proc = string

  /** auto: the file is marked to run without a transaction. */
  datatype File = File(version: int, name: string, auto: bool)

  /** As scan_migrations sorts them. */
  ghost predicate Sorted(files: seq<File>) {
    forall i, j :: 0 <= i < j < |files| ==> files[i].version <= files[j].version
  }

  /** The files each instance has, sorted. They may differ: an instance may be of another release, and
      files of one version are in no particular order. */
  type Lists = Proc -> seq<File>

  ghost predicate AllSorted(fs: Lists) { forall p :: Sorted(fs(p)) }

  ghost predicate Increasing(log: seq<File>) {
    forall i, j :: 0 <= i < j < |log| ==> log[i].version < log[j].version
  }

  function Versions(files: seq<File>): set<int> { set i | 0 <= i < |files| :: files[i].version }

  /** i: the file whose turn it is. applied: the versions seen recorded at the start. seen: whether
      its version was recorded when the lock was taken. */
  datatype Phase =
    | Boot
    | Ready(i: nat, applied: set<int>)
    | Holding(i: nat, applied: set<int>, seen: bool)
    | Ran(i: nat, applied: set<int>)

  /** table: the recorded versions. log: every migration whose SQL has committed, in order. */
  datatype World = World(table: set<int>, log: seq<File>, lock: Option<Proc>, procs: map<Proc, Phase>) {
    function PhaseOf(p: Proc): Phase { if p in procs then procs[p] else Boot }
    function To(p: Proc, x: Phase): World { this.(procs := procs[p := x]) }
  }

  datatype Event =
    | Snapshot(p: Proc)
    | Skip(p: Proc)
    | Lock(p: Proc)
    | Commit(p: Proc)
    | Rollback(p: Proc)
    | RunSql(p: Proc)
    | Record(p: Proc)
    | Crash(p: Proc)

  predicate Turn(files: seq<File>, x: Phase) { !x.Boot? && x.i < |files| }

  predicate Enabled(fs: Lists, w: World, e: Event) {
    var x, files := w.PhaseOf(e.p), fs(e.p);
    match e
    case Snapshot(_) => x.Boot?
    case Skip(_) => x.Ready? && Turn(files, x) && files[x.i].version in x.applied
    case Lock(_) => x.Ready? && Turn(files, x) && files[x.i].version !in x.applied && w.lock.None?
    case Commit(_) => x.Holding? && Turn(files, x) && (x.seen || !files[x.i].auto)
    case Rollback(_) => x.Holding?
    case RunSql(_) => x.Holding? && Turn(files, x) && !x.seen && files[x.i].auto
    case Record(_) => x.Ran? && Turn(files, x)
    case Crash(_) => !x.Boot?
  }

  /** Rollback is a retried transaction. A crash, or an error that ends the boot, drops whatever
      was not committed and the lock with it; the instance may boot again. */
  function Step(fs: Lists, w: World, e: Event): World {
    if !Enabled(fs, w, e) then w else
    var x, p, files := w.PhaseOf(e.p), e.p, fs(e.p);
    match e
    case Snapshot(_) => w.To(p, Ready(0, w.table))
    case Skip(_) => w.To(p, Ready(x.i + 1, x.applied))
    case Lock(_) => w.To(p, Holding(x.i, x.applied, files[x.i].version in w.table)).(lock := Some(p))
    case Commit(_) =>
      var w' := w.To(p, Ready(x.i + 1, x.applied)).(lock := None);
      if x.seen then w' else w'.(table := w.table + {files[x.i].version}, log := w.log + [files[x.i]])
    case Rollback(_) => w.To(p, Ready(x.i, x.applied)).(lock := None)
    case RunSql(_) => w.To(p, Ran(x.i, x.applied)).(log := w.log + [files[x.i]])
    case Record(_) => w.To(p, Ready(x.i + 1, x.applied)).(table := w.table + {files[x.i].version}, lock := None)
    case Crash(_) => w.To(p, Boot).(lock := if w.lock == Some(p) then None else w.lock)
  }

  function Run(fs: Lists, w: World, es: seq<Event>): World
    decreases |es|
  { if es == [] then w else Step(fs, Run(fs, w, es[..|es| - 1]), es[|es| - 1]) }

  function Start(table: set<int>): World { World(table, [], None, map[]) }

  predicate Finished(files: seq<File>, x: Phase) { x.Ready? && x.i == |files| }

  // ---- What always holds ---------------------------------------------------------------------

  /** Every version before file i is recorded. */
  ghost predicate Behind(files: seq<File>, table: set<int>, i: nat) {
    i <= |files| && forall j :: 0 <= j < i ==> files[j].version in table
  }

  ghost predicate PhaseOk(fs: Lists, w: World, p: Proc) {
    var x, files := w.PhaseOf(p), fs(p);
    && (!x.Boot? ==> Behind(files, w.table, x.i) && x.applied <= w.table)
    && (w.lock == Some(p) <==> x.Holding? || x.Ran?)
    && (x.Holding? ==> Turn(files, x) && (x.seen <==> files[x.i].version in w.table))
    && (x.Ran? ==> Turn(files, x) && files[x.i].version !in w.table)
  }

  /** The version whose SQL has committed and whose row has not: at most the lock holder's. */
  ghost function Flying(fs: Lists, w: World): set<int> {
    if w.lock.Some? && w.PhaseOf(w.lock.value).Ran? && Turn(fs(w.lock.value), w.PhaseOf(w.lock.value))
    then {fs(w.lock.value)[w.PhaseOf(w.lock.value).i].version} else {}
  }

  /** The first file with its version. */
  ghost predicate First(files: seq<File>, f: File) {
    exists i :: 0 <= i < |files| && files[i] == f && forall j :: 0 <= j < i ==> files[j].version != f.version
  }

  ghost predicate FromSome(fs: Lists, f: File) { exists p :: First(fs(p), f) }

  ghost predicate OncePerVersion(log: seq<File>) {
    forall i, j :: 0 <= i < j < |log| ==> log[i].version != log[j].version
  }

  /** The log against the table: what is recorded or in flight is what was there at first and what
      has been applied since, one file a version, each the first of its version on some instance. */
  ghost predicate LogOk(fs: Lists, w: World, t0: set<int>) {
    && w.table + Flying(fs, w) == t0 + Versions(w.log)
    && w.table !! Flying(fs, w) && t0 !! Versions(w.log) && t0 <= w.table
    && (forall f :: f in w.log ==> FromSome(fs, f))
    && OncePerVersion(w.log)
  }

  ghost predicate Inv(fs: Lists, w: World, t0: set<int>) {
    LogOk(fs, w, t0) && forall p :: PhaseOk(fs, w, p)
  }

  /** An autocommit migration dies between its statement and its row. */
  predicate Breaks(w: World, e: Event) { e.Crash? && w.PhaseOf(e.p).Ran? }

  /** The steps that apply a migration. */
  predicate Applies(fs: Lists, w: World, e: Event) {
    Enabled(fs, w, e) && (e.RunSql? || (e.Commit? && !w.PhaseOf(e.p).seen))
  }

  lemma PhasesStay(fs: Lists, w: World, e: Event)
    requires forall p :: PhaseOk(fs, w, p)
    ensures forall p :: PhaseOk(fs, Step(fs, w, e), p)
  {
    var w' := Step(fs, w, e);
    assert w.table <= w'.table;
    forall p ensures PhaseOk(fs, w', p) {
      assert PhaseOk(fs, w, p) && PhaseOk(fs, w, e.p);
      if p != e.p { assert w'.PhaseOf(p) == w.PhaseOf(p); }
    }
  }

  lemma VersionsAdd(log: seq<File>, f: File)
    ensures Versions(log + [f]) == Versions(log) + {f.version}
  {
    var log' := log + [f];
    forall x ensures x in Versions(log') <==> x in Versions(log) + {f.version} {
      if x in Versions(log) { var k :| 0 <= k < |log| && log[k].version == x; assert log'[k].version == x; }
      if x == f.version { assert log'[|log|].version == x; }
    }
  }

  lemma InVersions(log: seq<File>, f: File)
    requires f in log
    ensures f.version in Versions(log)
  { var k :| 0 <= k < |log| && log[k] == f; }

  lemma ApplyKeepsLog(fs: Lists, w: World, e: Event, t0: set<int>)
    requires Inv(fs, w, t0) && Applies(fs, w, e)
    ensures LogOk(fs, Step(fs, w, e), t0)
  {
    var w', i, files := Step(fs, w, e), w.PhaseOf(e.p).i, fs(e.p);
    assert PhaseOk(fs, w, e.p) && Flying(fs, w) == {};
    VersionsAdd(w.log, files[i]);
    forall f | f in w.log ensures f.version != files[i].version { InVersions(w.log, f); }
    assert First(files, files[i]);
    assert forall f :: f in w'.log ==> f in w.log || f == files[i];
  }

  lemma RecordKeepsLog(fs: Lists, w: World, p: Proc, t0: set<int>)
    requires Inv(fs, w, t0) && Enabled(fs, w, Record(p))
    ensures LogOk(fs, Step(fs, w, Record(p)), t0)
  {
    assert PhaseOk(fs, w, p);
    assert Flying(fs, w) == {fs(p)[w.PhaseOf(p).i].version} && Flying(fs, Step(fs, w, Record(p))) == {};
  }

  lemma QuietKeepsLog(fs: Lists, w: World, e: Event, t0: set<int>)
    requires Inv(fs, w, t0) && Enabled(fs, w, e) && !Applies(fs, w, e) && !e.Record?
    ensures LogOk(fs, Step(fs, w, e), t0) <==> !Breaks(w, e)
  {
    var w' := Step(fs, w, e);
    assert PhaseOk(fs, w, e.p) && w'.table == w.table && w'.log == w.log;
    if Breaks(w, e) {
      assert fs(e.p)[w.PhaseOf(e.p).i].version in Flying(fs, w) && Flying(fs, w') == {};
    } else {
      assert Flying(fs, w') == Flying(fs, w) by {
        if w.lock.Some? && w.lock.value != e.p { assert PhaseOk(fs, w, w.lock.value); }
      }
    }
  }

  /** Whatever files each instance has and however they interleave, everything holds until an
      autocommit migration dies half done: only there is a crash not harmless. */
  lemma StepKeepsInv(fs: Lists, w: World, e: Event, t0: set<int>)
    requires Inv(fs, w, t0)
    ensures Inv(fs, Step(fs, w, e), t0) <==> !Breaks(w, e)
  {
    if Enabled(fs, w, e) {
      PhasesStay(fs, w, e);
      if Applies(fs, w, e) {
        ApplyKeepsLog(fs, w, e, t0);
      } else if e.Record? {
        RecordKeepsLog(fs, w, e.p, t0);
      } else {
        QuietKeepsLog(fs, w, e, t0);
      }
    }
  }

  ghost predicate Legal(fs: Lists, w: World, es: seq<Event>)
    decreases |es|
  {
    es == [] || (Legal(fs, w, es[..|es| - 1]) && !Breaks(Run(fs, w, es[..|es| - 1]), es[|es| - 1]))
  }

  lemma StartIsInv(fs: Lists, t0: set<int>)
    ensures Inv(fs, Start(t0), t0)
  { assert Versions([]) == {}; }

  lemma {:induction false} RunKeepsInv(fs: Lists, t0: set<int>, es: seq<Event>)
    requires Legal(fs, Start(t0), es)
    ensures Inv(fs, Run(fs, Start(t0), es), t0)
    decreases |es|
  {
    if es == [] {
      StartIsInv(fs, t0);
    } else {
      RunKeepsInv(fs, t0, es[..|es| - 1]);
      StepKeepsInv(fs, Run(fs, Start(t0), es[..|es| - 1]), es[|es| - 1], t0);
    }
  }

  /** In every reachable state, whatever files each instance has: at most one file of a version has
      been applied, none of a version that was recorded before, and an instance that has finished
      finds every version of its own recorded. */
  lemma AppliedOnce(fs: Lists, t0: set<int>, es: seq<Event>)
    requires Legal(fs, Start(t0), es)
    ensures var w := Run(fs, Start(t0), es);
      && OncePerVersion(w.log)
      && (forall f :: f in w.log ==> FromSome(fs, f) && f.version !in t0)
      && (forall p :: Finished(fs(p), w.PhaseOf(p)) ==> Versions(fs(p)) <= w.table)
  {
    RunKeepsInv(fs, t0, es);
    var w := Run(fs, Start(t0), es);
    forall f | f in w.log ensures f.version !in t0 { InVersions(w.log, f); }
    forall p | Finished(fs(p), w.PhaseOf(p)) ensures Versions(fs(p)) <= w.table { assert PhaseOk(fs, w, p); }
  }

  // ---- When they are applied in order --------------------------------------------------------

  predicate Pends(files: seq<File>, t0: set<int>, v: int) { v in Versions(files) && v !in t0 }

  /** An instance that has a version to apply has every smaller one that another has to apply. */
  ghost predicate Compatible(fs: Lists, t0: set<int>) {
    forall p, q, u, v :: Pends(fs(p), t0, u) && Pends(fs(q), t0, v) && v < u ==> v in Versions(fs(p))
  }

  /** Every version below v that some instance has is recorded. */
  ghost predicate Below(fs: Lists, table: set<int>, v: int) {
    forall q, x :: x in Versions(fs(q)) && x < v ==> x in table
  }

  ghost predicate Ordered(fs: Lists, w: World) {
    Increasing(w.log) && forall f :: f in w.log ==> Below(fs, w.table, f.version)
  }

  lemma AppliedIsNewest(fs: Lists, w: World, e: Event, t0: set<int>)
    requires AllSorted(fs) && Compatible(fs, t0) && Inv(fs, w, t0) && Ordered(fs, w) && Applies(fs, w, e)
    ensures Ordered(fs, Step(fs, w, e))
  {
    var w', i, files := Step(fs, w, e), w.PhaseOf(e.p).i, fs(e.p);
    var f, v := files[i], files[i].version;
    assert PhaseOk(fs, w, e.p);
    InVersions(files, f);
    assert Pends(files, t0, v);
    forall q, x | x in Versions(fs(q)) && x < v ensures x in w.table {
      if x !in t0 {
        assert Pends(fs(q), t0, x);
        var j :| 0 <= j < |files| && files[j].version == x;
        assert j < i;
      }
    }
    forall k | 0 <= k < |w.log| ensures w.log[k].version < v {
      assert w.log[k] in w.log;
      InVersions(w.log, w.log[k]);
      assert Below(fs, w.table, w.log[k].version);
    }
    forall g | g in w'.log ensures Below(fs, w'.table, g.version) { assert g in w.log || g == f; }
  }

  lemma StepKeepsOrder(fs: Lists, w: World, e: Event, t0: set<int>)
    requires AllSorted(fs) && Compatible(fs, t0) && Inv(fs, w, t0) && Ordered(fs, w)
    ensures Ordered(fs, Step(fs, w, e))
  {
    if Applies(fs, w, e) {
      AppliedIsNewest(fs, w, e, t0);
    } else {
      var w' := Step(fs, w, e);
      assert w'.log == w.log && w.table <= w'.table;
      forall f | f in w'.log ensures Below(fs, w'.table, f.version) { assert Below(fs, w.table, f.version); }
    }
  }

  lemma {:induction false} RunKeepsOrder(fs: Lists, t0: set<int>, es: seq<Event>)
    requires AllSorted(fs) && Compatible(fs, t0) && Legal(fs, Start(t0), es)
    ensures Ordered(fs, Run(fs, Start(t0), es))
    decreases |es|
  {
    if es != [] {
      RunKeepsOrder(fs, t0, es[..|es| - 1]);
      RunKeepsInv(fs, t0, es[..|es| - 1]);
      StepKeepsOrder(fs, Run(fs, Start(t0), es[..|es| - 1]), es[|es| - 1], t0);
    }
  }

  /** w' follows from w by steps of p alone, which have applied only files of p. */
  ghost predicate Onward(fs: Lists, w: World, w': World, p: Proc) {
    && w'.lock.None? && w.log <= w'.log
    && (forall k :: |w.log| <= k < |w'.log| ==> w'.log[k] in fs(p))
    && (forall q :: q != p ==> w'.PhaseOf(q) == w.PhaseOf(q))
  }

  ghost predicate Reaches(fs: Lists, t0: set<int>, es: seq<Event>, w: World) {
    Legal(fs, Start(t0), es) && Run(fs, Start(t0), es) == w
  }

  lemma Then(fs: Lists, t0: set<int>, es: seq<Event>, w: World, e: Event) returns (es': seq<Event>, w': World)
    requires Reaches(fs, t0, es, w) && !Breaks(w, e)
    ensures w' == Step(fs, w, e) && Reaches(fs, t0, es', w')
  {
    es', w' := es + [e], Step(fs, w, e);
    assert es'[..|es|] == es;
  }

  /** One file: skipped, found recorded, or applied in one way or the other. */
  lemma OneFile(fs: Lists, t0: set<int>, es: seq<Event>, w: World, p: Proc) returns (es': seq<Event>, w': World)
    requires Reaches(fs, t0, es, w) && w.lock.None? && w.PhaseOf(p).Ready? && Turn(fs(p), w.PhaseOf(p))
    ensures Reaches(fs, t0, es', w') && Onward(fs, w, w', p)
    ensures w'.PhaseOf(p) == Ready(w.PhaseOf(p).i + 1, w.PhaseOf(p).applied)
  {
    var f, x := fs(p)[w.PhaseOf(p).i], w.PhaseOf(p);
    if f.version in x.applied {
      es', w' := Then(fs, t0, es, w, Skip(p));
    } else {
      var es1, w1 := Then(fs, t0, es, w, Lock(p));
      if f.version in w.table || !f.auto {
        es', w' := Then(fs, t0, es1, w1, Commit(p));
      } else {
        var es2, w2 := Then(fs, t0, es1, w1, RunSql(p));
        es', w' := Then(fs, t0, es2, w2, Record(p));
      }
    }
  }

  lemma {:induction false} TheRest(fs: Lists, t0: set<int>, es: seq<Event>, w: World, p: Proc) returns (es': seq<Event>, w': World)
    requires Reaches(fs, t0, es, w) && w.lock.None? && w.PhaseOf(p).Ready? && w.PhaseOf(p).i <= |fs(p)|
    ensures Reaches(fs, t0, es', w') && Onward(fs, w, w', p) && Finished(fs(p), w'.PhaseOf(p))
    decreases |fs(p)| - w.PhaseOf(p).i
  {
    if w.PhaseOf(p).i == |fs(p)| {
      es', w' := es, w;
    } else {
      var es1, w1 := OneFile(fs, t0, es, w, p);
      es', w' := TheRest(fs, t0, es1, w1, p);
    }
  }

  /** One instance boots, with nobody else at work, and applies what it has to. */
  lemma BootAlone(fs: Lists, t0: set<int>, es: seq<Event>, w: World, p: Proc) returns (es': seq<Event>, w': World)
    requires Reaches(fs, t0, es, w) && w.lock.None? && w.PhaseOf(p).Boot?
    ensures Reaches(fs, t0, es', w') && Onward(fs, w, w', p)
    ensures w'.table == t0 + Versions(w'.log) && Versions(fs(p)) <= w'.table
  {
    var es1, w1 := Then(fs, t0, es, w, Snapshot(p));
    es', w' := TheRest(fs, t0, es1, w1, p);
    RunKeepsInv(fs, t0, es');
    assert PhaseOk(fs, w', p) && Flying(fs, w') == {};
  }

  /** p boots and finishes with u, and then q brings the smaller v. */
  lemma OneAfterTheOther(fs: Lists, t0: set<int>, p: Proc, q: Proc, u: int, v: int) returns (es: seq<Event>)
    requires Pends(fs(p), t0, u) && Pends(fs(q), t0, v) && v < u && v !in Versions(fs(p))
    ensures Legal(fs, Start(t0), es) && !Increasing(Run(fs, Start(t0), es).log)
  {
    var es1, w1 := BootAlone(fs, t0, [], Start(t0), p);
    var w2;
    es, w2 := BootAlone(fs, t0, es1, w1, q);
    assert u in Versions(w1.log) && v in Versions(w2.log);
    var i :| 0 <= i < |w1.log| && w1.log[i].version == u;
    var j :| 0 <= j < |w2.log| && w2.log[j].version == v;
    assert w2.log[i] == w1.log[i];
    forall k | 0 <= k < |w1.log| ensures w2.log[k].version in Versions(fs(p)) { InVersions(fs(p), w1.log[k]); }
  }

  /** Migrations are applied in increasing order in every run if and only if the lists are compatible.
      One list shared by all is; a release that brings a smaller version than another has is not. */
  lemma InOrderExactlyForCompatibleLists(fs: Lists, t0: set<int>)
    requires AllSorted(fs)
    ensures (forall es :: Legal(fs, Start(t0), es) ==> Increasing(Run(fs, Start(t0), es).log)) <==> Compatible(fs, t0)
  {
    if Compatible(fs, t0) {
      forall es | Legal(fs, Start(t0), es) ensures Increasing(Run(fs, Start(t0), es).log) { RunKeepsOrder(fs, t0, es); }
    } else {
      var p, q, u, v :| Pends(fs(p), t0, u) && Pends(fs(q), t0, v) && v < u && v !in Versions(fs(p));
      var es := OneAfterTheOther(fs, t0, p, q, u, v);
    }
  }

  // ---- One boot alone ------------------------------------------------------------------------

  /** The migrations that a boot has to apply: those not recorded, the first of each version. */
  function Pending(files: seq<File>, table: set<int>): seq<File> {
    if files == [] then []
    else if files[0].version in table then Pending(files[1..], table)
    else [files[0]] + Pending(files[1..], table + {files[0].version})
  }

  class Database {
    var table: set<int>
    var log: seq<File>

    constructor (t0: set<int>)
      ensures table == t0 && log == []
    { table, log := t0, []; }

    /** Under the lock: check again, run, record. */
    method Apply(f: File) returns (applied: bool)
      modifies this
      ensures applied <==> f.version !in old(table)
      ensures table == old(table) + {f.version}
      ensures log == if applied then old(log) + [f] else old(log)
    {
      if f.version in table { assert table == table + {f.version}; return false; }
      log := log + [f];
      table := table + {f.version};
      return true;
    }

    /** initialize, with no other instance about. */
    method Initialize(files: seq<File>) returns (applied: nat, skipped: nat)
      modifies this
      ensures log == old(log) + Pending(files, old(table))
      ensures table == old(table) + Versions(files)
      ensures applied == |Pending(files, old(table))| && applied + skipped == |files|
    {
      hide Pending, Versions;
      PendingOfNone(table);
      applied, skipped := 0, 0;
      var snapshot := table;
      ghost var all := Pending(files, table);
      assert files[0..] == files;
      for i := 0 to |files|
        invariant snapshot <= table && table == old(table) + Versions(files[..i])
        invariant log + Pending(files[i..], table) == old(log) + all
        invariant applied + |Pending(files[i..], table)| == |all| && applied + skipped == i
      {
        var f := files[i];
        PendingFrom(files, i, table);
        VersionsStep(files, i);
        if f.version in snapshot { skipped := skipped + 1; continue; }
        ghost var was, had := log, table;
        var did := Apply(f);
        if did {
          applied := applied + 1;
          Pass(was, f, Pending(files[i + 1..], table));
        } else {
          skipped := skipped + 1;
          assert table == had;
        }
      }
      assert files[..|files|] == files && files[|files|..] == [];
      PendingOfNone(table);
      assert log + [] == log;
    }
  }

  lemma Pass(a: seq<File>, f: File, b: seq<File>)
    ensures a + ([f] + b) == a + [f] + b && |[f] + b| == 1 + |b|
  {}

  lemma PendingOfNone(table: set<int>)
    ensures Pending([], table) == [] && Versions([]) == {}
  {}

  lemma PendingFrom(files: seq<File>, i: nat, table: set<int>)
    requires i < |files|
    ensures var v, next := files[i].version, files[i + 1..];
      Pending(files[i..], table) == if v in table then Pending(next, table) else [files[i]] + Pending(next, table + {v})
  { assert files[i..][1..] == files[i + 1..]; }

  lemma VersionsStep(files: seq<File>, i: nat)
    requires i < |files|
    ensures Versions(files[..i + 1]) == Versions(files[..i]) + {files[i].version}
    ensures files[i].version in Versions(files)
  {
    var a, b := files[..i + 1], files[..i];
    forall x ensures x in Versions(a) <==> x in Versions(b) + {files[i].version} {
      if x in Versions(b) { var k :| 0 <= k < i && b[k].version == x; assert a[k].version == x; }
      if x == files[i].version { assert a[i].version == x; }
    }
  }

  // ---- Many boots are as one -----------------------------------------------------------------

  lemma {:induction false} PendingIs(files: seq<File>, table: set<int>)
    ensures Versions(Pending(files, table)) == Versions(files) - table
    ensures forall f :: f in Pending(files, table) ==> First(files, f)
    ensures Sorted(files) ==> Increasing(Pending(files, table))
  {
    if files != [] {
      var f, rest := files[0], files[1..];
      var seen := f.version in table;
      var next := Pending(rest, if seen then table else table + {f.version});
      PendingIs(rest, if seen then table else table + {f.version});
      assert files == [f] + rest;
      VersionsCons(f, rest);
      VersionsCons(f, next);
      forall g | g in next ensures First(files, g) { FirstInTail(f, rest, g, next, table); }
      assert First(files, f);
      if Sorted(files) && !seen {
        forall k | 0 <= k < |next| ensures f.version < next[k].version {
          assert next[k] in next && First(rest, next[k]) && next[k].version in Versions(next);
        }
      }
    }
  }

  lemma VersionsCons(f: File, rest: seq<File>)
    ensures Versions([f] + rest) == {f.version} + Versions(rest)
  {
    var a := [f] + rest;
    forall x ensures x in Versions(a) <==> x == f.version || x in Versions(rest) {
      if x == f.version { assert a[0].version == x; }
      if x in Versions(rest) { var k :| 0 <= k < |rest| && rest[k].version == x; assert a[k + 1].version == x; }
      if x in Versions(a) && x != f.version { var k :| 0 <= k < |a| && a[k].version == x; assert rest[k - 1].version == x; }
    }
  }

  lemma FirstInTail(f: File, rest: seq<File>, g: File, next: seq<File>, table: set<int>)
    requires First(rest, g) && g in next && Versions(next) == Versions(rest) - (table + {f.version})
    ensures First([f] + rest, g)
  {
    var i :| 0 <= i < |rest| && rest[i] == g && forall j :: 0 <= j < i ==> rest[j].version != g.version;
    var k :| 0 <= k < |next| && next[k] == g;
    assert g.version in Versions(next);
    var a := [f] + rest;
    assert a[i + 1] == g && forall j :: 0 <= j < i + 1 ==> a[j].version != g.version;
  }

  lemma LastVersion(a: seq<File>)
    requires a != [] && Increasing(a)
    ensures var v := a[|a| - 1].version;
      v in Versions(a) && (forall x :: x in Versions(a) ==> x <= v) && Versions(a[..|a| - 1]) == Versions(a) - {v}
  {
    var n := |a| - 1;
    assert a[..n + 1] == a;
    VersionsStep(a, n);
    forall x | x in Versions(a[..n]) ensures x < a[n].version {
      var k :| 0 <= k < n && a[..n][k].version == x;
    }
  }

  lemma OneFirst(files: seq<File>, f: File, g: File)
    requires First(files, f) && First(files, g) && f.version == g.version
    ensures f == g
  {}

  lemma {:induction false} OneOrder(files: seq<File>, a: seq<File>, b: seq<File>)
    requires Increasing(a) && Increasing(b) && Versions(a) == Versions(b)
    requires forall f :: f in a || f in b ==> First(files, f)
    ensures a == b
    decreases |a|
  {
    hide First;
    if a == [] {
      if b != [] { LastVersion(b); }
    } else {
      LastVersion(a);
      assert b != [] by { assert Versions([]) == {}; }
      LastVersion(b);
      var x, y := a[|a| - 1], b[|b| - 1];
      assert x in a && y in b;
      OneFirst(files, x, y);
      OneOrder(files, a[..|a| - 1], b[..|b| - 1]);
      assert a == a[..|a| - 1] + [x] && b == b[..|b| - 1] + [y];
    }
  }

  /** However many instances boot with one list, crash and boot again, and however they interleave: as
      soon as one has finished, exactly what a single boot would have applied has been applied, once
      each and in the same order, and every file's version is recorded. */
  lemma AnyBootsAreAsOne(fs: Lists, files: seq<File>, t0: set<int>, es: seq<Event>, p: Proc)
    requires Sorted(files) && (forall q :: fs(q) == files) && Legal(fs, Start(t0), es)
    requires Finished(files, Run(fs, Start(t0), es).PhaseOf(p))
    ensures var w := Run(fs, Start(t0), es);
      w.log == Pending(files, t0) && w.table == t0 + Versions(files)
  {
    var w := Run(fs, Start(t0), es);
    RunKeepsInv(fs, t0, es);
    RunKeepsOrder(fs, t0, es);
    assert PhaseOk(fs, w, p);
    assert Flying(fs, w) == {} by {
      if w.lock.Some? { assert PhaseOk(fs, w, w.lock.value); }
    }
    forall f | f in w.log ensures First(files, f) { assert FromSome(fs, f); }
    forall v | v in Versions(w.log) ensures v in Versions(files) {
      var k :| 0 <= k < |w.log| && w.log[k].version == v;
      assert First(files, w.log[k]);
    }
    assert Versions(w.log) == Versions(files) - t0;
    PendingIs(files, t0);
    OneOrder(files, w.log, Pending(files, t0));
  }

  /** A single boot runs the SQL of every unrecorded file, exactly when their versions differ. */
  lemma EveryFileRunsIfVersionsDiffer(files: seq<File>, t0: set<int>)
    requires Sorted(files)
    ensures (forall i :: 0 <= i < |files| && files[i].version !in t0 ==> files[i] in Pending(files, t0)) <==>
            (forall i, j :: 0 <= i < j < |files| && files[i].version !in t0 && files[i].version == files[j].version ==> files[i] == files[j])
  {
    var ps := Pending(files, t0);
    PendingIs(files, t0);
    if forall i :: 0 <= i < |files| && files[i].version !in t0 ==> files[i] in ps {
      forall i, j | 0 <= i < j < |files| && files[i].version !in t0 && files[i].version == files[j].version ensures files[i] == files[j] {
        assert files[i] in ps && files[j] in ps;
      }
    }
    if forall i, j :: 0 <= i < j < |files| && files[i].version !in t0 && files[i].version == files[j].version ==> files[i] == files[j] {
      forall i | 0 <= i < |files| && files[i].version !in t0 ensures files[i] in ps {
        assert files[i].version in Versions(ps);
        var k :| 0 <= k < |ps| && ps[k].version == files[i].version;
        assert ps[k] in ps && First(files, ps[k]);
      }
    }
  }

  lemma StepTo(fs: Lists, w0: World, es: seq<Event>, w: World, e: Event) returns (es': seq<Event>, w': World)
    requires Run(fs, w0, es) == w
    ensures w' == Step(fs, w, e) && Run(fs, w0, es') == w'
  {
    es', w' := es + [e], Step(fs, w, e);
    assert es'[..|es|] == es;
  }

  /** The path without a transaction keeps no such promise across a crash: the statement runs
      again at the next boot. */
  lemma HalfDoneRunsAgain(fs: Lists, f: File, t0: set<int>) returns (es: seq<Event>)
    requires fs("a") == [f] && f.auto && f.version !in t0
    ensures Run(fs, Start(t0), es).log == [f, f]
  {
    var w0 := Start(t0);
    var w;
    es, w := [], w0;
    es, w := StepTo(fs, w0, es, w, Snapshot("a"));
    es, w := StepTo(fs, w0, es, w, Lock("a"));
    es, w := StepTo(fs, w0, es, w, RunSql("a"));
    es, w := StepTo(fs, w0, es, w, Crash("a"));
    es, w := StepTo(fs, w0, es, w, Snapshot("a"));
    es, w := StepTo(fs, w0, es, w, Lock("a"));
    es, w := StepTo(fs, w0, es, w, RunSql("a"));
  }
}
