/** Tag lists, stored as one comma-joined text column and searched with a LIKE clause. */
module Tags {
  import opened Wrappers

  predicate Blank(c: char) { c == ' ' || c == '\t' }

  /** A tag that can be stored: not empty, no blank at either end, no comma. */
  predicate Clean(t: string) { t != [] && !Blank(t[0]) && !Blank(t[|t| - 1]) && ',' !in t }

  ghost predicate AllClean(ts: seq<string>) { forall t :: t in ts ==> Clean(t) }

  function Trim(t: string): (r: string)
    ensures r == [] || (!Blank(r[0]) && !Blank(r[|r| - 1]))
    ensures forall c :: c in r ==> c in t
    ensures |r| <= |t|
    decreases |t|
  {
    if t == [] then t
    else if Blank(t[0]) then Trim(t[1..])
    else if Blank(t[|t| - 1]) then Trim(t[..|t| - 1])
    else t
  }

  /** Trimming takes blanks off the ends and nothing else. */
  lemma {:induction false} OnlyBlanksGo(t: string) returns (a: string, b: string)
    ensures t == a + Trim(t) + b && forall c :: c in a + b ==> Blank(c)
    decreases |t|
  {
    a, b := "", "";
    if t == [] {
    } else if Blank(t[0]) {
      a, b := OnlyBlanksGo(t[1..]);
      assert t == [t[0]] + t[1..];
      assert t == ([t[0]] + a) + Trim(t) + b;
      a := [t[0]] + a;
    } else if Blank(t[|t| - 1]) {
      var n := |t| - 1;
      a, b := OnlyBlanksGo(t[..n]);
      assert t == t[..n] + [t[n]];
      assert t == a + Trim(t) + (b + [t[n]]);
      b := b + [t[n]];
    }
  }

  method TrimBlanks(t: string) returns (r: string)
    ensures r == Trim(t)
  {
    var b, e := 0, |t|;
    while b < |t| && Blank(t[b])
      invariant 0 <= b <= |t| && Trim(t[b..]) == Trim(t)
    {
      assert t[b..][1..] == t[b + 1..];
      b := b + 1;
    }
    assert t[b..e] == t[b..];
    while b < e && Blank(t[e - 1])
      invariant b <= e <= |t| && Trim(t[b..e]) == Trim(t)
      invariant b < |t| ==> b < e
    {
      assert t[b..e][..e - b - 1] == t[b..e - 1];
      e := e - 1;
    }
    r := t[b..e];
  }

  // ---- split_tags and join_tags --------------------------------------------------------------

  function Comma(s: string): (i: nat)
    ensures i <= |s| && ',' !in s[..i] && (i < |s| ==> s[i] == ',')
  {
    if s == [] || s[0] == ',' then 0
    else var i := 1 + Comma(s[1..]); assert s[..i] == [s[0]] + s[1..][..i - 1]; i
  }

  /** What stands between the commas: always at least one part. */
  function Parts(s: string): (ps: seq<string>)
    ensures |ps| > 0
    decreases |s|
  {
    var i := Comma(s);
    if i == |s| then [s] else [s[..i]] + Parts(s[i + 1..])
  }

  function Kept(ps: seq<string>): seq<string> {
    if ps == [] then []
    else (if Trim(ps[0]) == [] then [] else [Trim(ps[0])]) + Kept(ps[1..])
  }

  function Tags(csv: string): seq<string> { Kept(Parts(csv)) }

  lemma KeptCons(p: string, ps: seq<string>)
    ensures Kept([p] + ps) == (if Trim(p) == [] then [] else [Trim(p)]) + Kept(ps)
  { assert ([p] + ps)[1..] == ps; }

  lemma TagsStep(s: string)
    ensures var i := Comma(s); var t := Trim(s[..i]);
      Tags(s) == (if t == [] then [] else [t]) + if i == |s| then [] else Tags(s[i + 1..])
  {
    var i := Comma(s);
    if i == |s| {
      assert s[..i] == s && [s] + [] == [s];
      KeptCons(s, []);
    } else {
      KeptCons(s[..i], Parts(s[i + 1..]));
    }
  }

  lemma StepFrom(csv: string, start: nat, out: seq<string>)
    requires start <= |csv|
    ensures var rest := csv[start..]; var i := Comma(rest); var t := Trim(rest[..i]);
      && (i == |rest| ==> out + Tags(rest) == if t == [] then out else out + [t])
      && (i < |rest| ==> out + Tags(rest) == (if t == [] then out else out + [t]) + Tags(csv[start + i + 1..]))
  {
    hide Tags, Trim, Comma;
    var rest := csv[start..];
    TagsStep(rest);
    var i := Comma(rest);
    if i < |rest| { assert rest[i + 1..] == csv[start + i + 1..]; }
  }

  method SplitTags(csv: string) returns (out: seq<string>)
    ensures out == Tags(csv)
  {
    out := [];
    var start := 0;
    assert csv[0..] == csv;
    while true
      invariant 0 <= start <= |csv|
      invariant out + Tags(csv[start..]) == Tags(csv)
      decreases |csv| - start
    {
      StepFrom(csv, start, out);
      var rest := csv[start..];
      var comma := Comma(rest);
      var t := TrimBlanks(rest[..comma]);
      if t != [] { out := out + [t]; }
      if comma == |rest| { break; }
      start := start + comma + 1;
    }
  }

  /** As the code joins: a comma goes in front of a tag only when something is out already. */
  function Joined(ts: seq<string>): string {
    if ts == [] then ""
    else var o := Joined(ts[..|ts| - 1]); (if o == "" then "" else o + ",") + ts[|ts| - 1]
  }

  method JoinTags(ts: seq<string>) returns (out: string)
    ensures out == Joined(ts)
  {
    out := "";
    for i := 0 to |ts|
      invariant out == Joined(ts[..i])
    {
      assert ts[..i + 1][..i] == ts[..i];
      if out != "" { out := out + ","; }
      out := out + ts[i];
    }
    assert ts[..|ts|] == ts;
  }

  lemma PartsAt(s: string, i: nat)
    requires i < |s| && ',' !in s[..i] && s[i] == ','
    ensures Parts(s) == [s[..i]] + Parts(s[i + 1..])
  { CommaIs(s, i); }

  lemma PartsOfTwo(s: string, t: string)
    requires ',' !in s && ',' !in t
    ensures Parts(s + "," + t) == [s, t]
  {
    var x := s + "," + t;
    assert x[..|s|] == s && x[|s| + 1..] == t;
    PartsAt(x, |s|);
    NoComma(t);
  }

  lemma {:induction false} PartsOfJoined(s: string, t: string)
    requires ',' !in t
    ensures Parts(s + "," + t) == Parts(s) + [t]
    decreases |s|
  {
    hide Parts, Comma;
    var x, i := s + "," + t, Comma(s);
    if i == |s| {
      assert s[..i] == s;
      PartsOfTwo(s, t);
      NoComma(s);
    } else {
      assert x[..i] == s[..i] && x[i + 1..] == s[i + 1..] + "," + t;
      PartsAt(x, i);
      PartsAt(s, i);
      PartsOfJoined(s[i + 1..], t);
      assert [s[..i]] + (Parts(s[i + 1..]) + [t]) == [s[..i]] + Parts(s[i + 1..]) + [t];
    }
  }

  lemma CommaIs(s: string, i: nat)
    requires i <= |s| && ',' !in s[..i] && (i < |s| ==> s[i] == ',')
    ensures Comma(s) == i
  {
    if i > 0 {
      assert s[0] in s[..i];
      forall c | c in s[1..][..i - 1] ensures c in s[..i] {}
      CommaIs(s[1..], i - 1);
    }
  }

  lemma NoComma(t: string)
    requires ',' !in t
    ensures Parts(t) == [t]
  {
    assert t[..|t|] == t;
    CommaIs(t, |t|);
  }

  lemma {:induction false} PartsAreTheTags(ts: seq<string>)
    requires AllClean(ts) && ts != []
    ensures Parts(Joined(ts)) == ts && Joined(ts) != ""
    decreases |ts|
  {
    var r, t := ts[..|ts| - 1], ts[|ts| - 1];
    assert Clean(t) && ts == r + [t];
    if r == [] {
      assert Joined(ts) == t;
      NoComma(t);
    } else {
      PartsAreTheTags(r);
      PartsOfJoined(Joined(r), t);
    }
  }

  lemma {:induction false} CleanIsKept(ts: seq<string>)
    requires AllClean(ts)
    ensures Kept(ts) == ts
  {
    if ts != [] {
      assert Clean(ts[0]) && ts == [ts[0]] + ts[1..];
      CleanIsKept(ts[1..]);
    }
  }

  lemma {:induction false} PartsHaveNoComma(s: string)
    ensures forall p :: p in Parts(s) ==> ',' !in p
    decreases |s|
  {
    var i := Comma(s);
    if i < |s| { PartsHaveNoComma(s[i + 1..]); } else { assert s[..i] == s; }
  }

  lemma {:induction false} KeptIsClean(ps: seq<string>)
    requires forall p :: p in ps ==> ',' !in p
    ensures AllClean(Kept(ps))
  {
    if ps != [] {
      assert ps[0] in ps;
      KeptIsClean(ps[1..]);
    }
  }

  /** Splitting gives back exactly the lists of clean tags. */
  lemma SplitUndoesJoin(ts: seq<string>)
    ensures Tags(Joined(ts)) == ts <==> AllClean(ts)
  {
    PartsHaveNoComma(Joined(ts));
    KeptIsClean(Parts(Joined(ts)));
    if AllClean(ts) {
      if ts == [] {
        assert Tags("") == [];
      } else {
        PartsAreTheTags(ts);
        CleanIsKept(ts);
      }
    }
  }

  /** What is read from any column text, hand-written or not, survives being stored again. */
  lemma SplitIsStable(csv: string)
    ensures AllClean(Tags(csv)) && Tags(Joined(Tags(csv))) == Tags(csv)
  {
    PartsHaveNoComma(csv);
    KeptIsClean(Parts(csv));
    SplitUndoesJoin(Tags(csv));
  }

  // ---- The LIKE clause -----------------------------------------------------------------------

  /** LIKE with '\' as the escape character: '%' is any text, '_' any one character. */
  ghost predicate Like(p: string, s: string)
    decreases |p|
  {
    if p == [] then s == []
    else if p[0] == '%' then exists k :: 0 <= k <= |s| && Like(p[1..], s[k..])
    else if p[0] == '_' then s != [] && Like(p[1..], s[1..])
    else if p[0] == '\\' then |p| > 1 && s != [] && s[0] == p[1] && Like(p[2..], s[1..])
    else s != [] && s[0] == p[0] && Like(p[1..], s[1..])
  }

  predicate Meta(c: char) { c == '%' || c == '_' || c == '\\' }

  function Piece(c: char): string { if Meta(c) then ['\\', c] else [c] }

  function Escaped(s: string): string {
    if s == [] then [] else Piece(s[0]) + Escaped(s[1..])
  }

  lemma {:induction false} EscapedAppend(a: string, b: string)
    ensures Escaped(a + b) == Escaped(a) + Escaped(b)
  {
    if a == [] {
      assert a + b == b;
    } else {
      assert (a + b)[1..] == a[1..] + b;
      EscapedAppend(a[1..], b);
    }
  }

  lemma EscapedNext(s: string, i: nat)
    requires i < |s|
    ensures Escaped(s[..i + 1]) == Escaped(s[..i]) + Piece(s[i])
  {
    assert s[..i + 1] == s[..i] + [s[i]];
    EscapedAppend(s[..i], [s[i]]);
    assert [s[i]][1..] == [];
  }

  /** What one character means as a pattern; and the escape stands in front of just the three that mean
      something else than themselves. */
  lemma OneCharacter(c: char, s: string)
    ensures Like([c], s) <==> (match c case '%' => true case '_' => |s| == 1 case '\\' => false case _ => s == [c])
    ensures Escaped([c]) == if c in ['%', '_', '\\'] then ['\\', c] else [c]
    ensures Escaped([c]) == [c] <==> forall t :: Like([c], t) <==> t == [c]
  {
    assert [c][1..] == [] && Escaped([]) == [];
    if c == '%' { assert 0 <= |s| <= |s| && Like([], s[|s|..]); assert Like([c], "") by { assert Like([], ""[0..]); } }
    if c == '_' { assert Like([c], "a") && Like([c], "b"); }
    if c == '\\' { assert !Like([c], [c]); }
  }

  method EscapeLike(s: string) returns (out: string)
    ensures out == Escaped(s)
  {
    out := "";
    for i := 0 to |s|
      invariant out == Escaped(s[..i])
    {
      EscapedNext(s, i);
      if Meta(s[i]) { out := out + ['\\']; }
      out := out + [s[i]];
    }
    assert s[..|s|] == s;
  }

  lemma LikePiece(c: char, r: string, s: string)
    ensures Like(Piece(c) + r, s) <==> s != [] && s[0] == c && Like(r, s[1..])
  {
    var p := Piece(c) + r;
    if Meta(c) {
      assert p[0] == '\\' && p[1] == c && p[2..] == r;
    } else {
      assert p[0] == c && p[1..] == r;
    }
  }

  /** An escaped text stands for itself, whatever pattern follows. */
  lemma {:induction false} EscapedMatchesItself(t: string, q: string, s: string)
    ensures Like(Escaped(t) + q, s) <==> t <= s && Like(q, s[|t|..])
    decreases |t|
  {
    if t == [] {
      assert Escaped(t) + q == q && s[0..] == s;
    } else {
      assert Escaped(t) + q == Piece(t[0]) + (Escaped(t[1..]) + q);
      LikePiece(t[0], Escaped(t[1..]) + q, s);
      if s != [] {
        EscapedMatchesItself(t[1..], q, s[1..]);
        assert t == [t[0]] + t[1..] && s == [s[0]] + s[1..];
        assert t[1..] <= s[1..] ==> s[1..][|t| - 1..] == s[|t|..];
      }
    }
  }

  lemma EscapedIsLiteral(t: string, s: string)
    ensures Like(Escaped(t), s) <==> s == t
  {
    EscapedMatchesItself(t, "", s);
    assert Escaped(t) + "" == Escaped(t);
  }

  /** The clause of the public and the admin list: the column, wrapped in commas, contains the
      escaped tag, wrapped in commas. */
  ghost predicate TagClause(csv: string, tag: string) {
    Like("%," + Escaped(tag) + ",%", "," + csv + ",")
  }

  ghost predicate Contains(s: string, t: string) { exists k :: 0 <= k <= |s| && t <= s[k..] }

  lemma AnythingFollows(s: string)
    ensures Like("%", s)
  {
    assert "%"[1..] == "" && s[|s|..] == "";
    assert Like("%"[1..], s[|s|..]);
  }

  lemma ClauseIsContainment(csv: string, tag: string)
    ensures TagClause(csv, tag) <==> Contains("," + csv + ",", "," + tag + ",")
  {
    var w, t, p := "," + csv + ",", "," + tag + ",", "%," + Escaped(tag) + ",%";
    EscapedAppend(",", tag);
    EscapedAppend("," + tag, ",");
    assert Escaped(",") == ",";
    assert p[1..] == Escaped(t) + "%";
    forall k | 0 <= k <= |w| ensures Like(p[1..], w[k..]) <==> t <= w[k..] {
      EscapedMatchesItself(t, "%", w[k..]);
      if t <= w[k..] { AnythingFollows(w[k..][|t|..]); }
    }
  }

  /** The first comma of ",t," after its own is where the first part ends. */
  lemma FirstPart(w: string, p: string, tag: string)
    requires ',' !in p && ',' !in tag && "," + p + "," <= w
    ensures "," + tag + "," <= w <==> tag == p
  {
    var t := "," + tag + ",";
    assert w[1..][..|p|] == p && w[1..][|p|] == ',';
    CommaIs(w[1..], |p|);
    if t <= w {
      assert w[1..][..|tag|] == tag && w[1..][|tag|] == ',';
      CommaIs(w[1..], |tag|);
    }
  }

  /** An occurrence of ",t," is at the very start, or after the first part. */
  lemma Occurrences(w: string, p: string, rest: string, tag: string)
    requires ',' !in p && ',' !in tag && w == "," + p + rest && "," <= rest
    ensures var t := "," + tag + ","; Contains(w, t) <==> tag == p || Contains(rest, t)
  {
    var t, n := "," + tag + ",", |p| + 1;
    assert "," + p + "," <= w && w[0..] == w;
    FirstPart(w, p, tag);
    forall k | 0 < k < n ensures w[k] != ',' { assert w[k] == p[k - 1]; }
    forall k | 0 <= k <= |w| && t <= w[k..] ensures k == 0 || k >= n { assert w[k] == w[k..][0]; }
    if k :| 0 <= k <= |w| && t <= w[k..] && k > 0 {
      assert w[k..] == rest[k - n..];
    }
    if k :| 0 <= k <= |rest| && t <= rest[k..] {
      assert w[k + n..] == rest[k..];
    }
  }

  lemma OnlyPart(csv: string, tag: string)
    requires ',' !in csv && ',' !in tag
    ensures Contains("," + csv + ",", "," + tag + ",") <==> tag in Parts(csv)
  {
    NoComma(csv);
    Occurrences("," + csv + ",", csv, ",", tag);
    assert !Contains(",", "," + tag + ",");
  }

  lemma {:induction false} ContainmentIsMembership(csv: string, tag: string)
    requires ',' !in tag
    ensures Contains("," + csv + ",", "," + tag + ",") <==> tag in Parts(csv)
    decreases |csv|
  {
    var i := Comma(csv);
    if i == |csv| {
      assert csv[..i] == csv;
      OnlyPart(csv, tag);
    } else {
      var p, rest := csv[..i], "," + csv[i + 1..] + ",";
      assert "," + csv + "," == "," + p + rest;
      Occurrences("," + csv + ",", p, rest, tag);
      PartsAt(csv, i);
      ContainmentIsMembership(csv[i + 1..], tag);
    }
  }

  /** Searching the stored column by a tag without a comma finds exactly the lists it is in. */
  lemma ClauseAgreesWithTheList(ts: seq<string>, tag: string)
    requires AllClean(ts) && tag != "" && ',' !in tag
    ensures TagClause(Joined(ts), tag) <==> tag in ts
  {
    ClauseIsContainment(Joined(ts), tag);
    ContainmentIsMembership(Joined(ts), tag);
    if ts == [] { NoComma(""); } else { PartsAreTheTags(ts); }
  }

  /** A filter with a comma in it is not a tag, yet it finds the lists with these neighbours. */
  lemma CommaFilterFindsNeighbours(a: string, b: string)
    requires Clean(a) && Clean(b)
    ensures var f := a + "," + b;
      f !in [a, b] && AllClean([a, b]) && TagClause(Joined([a, b]), f)
  {
    var f := a + "," + b;
    assert [a, b][..1] == [a] && [a][..0] == [] && Joined([a]) == a && Joined([a, b]) == f;
    ClauseIsContainment(f, f);
    assert ("," + f + ",")[0..] == "," + f + ",";
    assert f[|a|] == ',' && f[|a|] in f;
  }

  lemma PartsBegin(s: string)
    ensures var ps, i := Parts(s), Comma(s);
      if i == |s| then ps == [s] else |ps| > 1 && ps[0] == s[..i] && ps[1..] == Parts(s[i + 1..]) && s == s[..i] + "," + s[i + 1..]
  {
    var i := Comma(s);
    if i < |s| {
      hide Parts, Comma;
      PartsAt(s, i);
      Around(s, i);
    } else {
      hide Comma;
    }
  }

  lemma Around(s: string, i: nat)
    requires i < |s| && s[i] == ','
    ensures s == s[..i] + "," + s[i + 1..]
  {}

  lemma {:induction false} PartsAreInjective(s: string, t: string)
    requires Parts(s) == Parts(t)
    ensures s == t
    decreases |s|
  {
    hide Parts, Comma;
    PartsBegin(s);
    PartsBegin(t);
    if Comma(s) < |s| { PartsAreInjective(s[Comma(s) + 1..], t[Comma(t) + 1..]); }
  }

  lemma ContainsThen(a: string, b: string, c: string)
    requires Contains(a, b) && Contains(b, c)
    ensures Contains(a, c)
  {
    var i :| 0 <= i <= |a| && b <= a[i..];
    var j :| 0 <= j <= |b| && c <= b[j..];
    assert a[i..][..|b|] == b && a[i + j..] == a[i..][j..];
    assert c <= a[i + j..];
  }

  /** A list that a filter finds has every part of the filter among its tags. */
  lemma FoundPartsAreTags(csv: string, filter: string, part: string)
    requires TagClause(csv, filter) && part in Parts(filter)
    ensures part in Parts(csv)
  {
    PartsHaveNoComma(filter);
    ClauseIsContainment(csv, filter);
    ContainmentIsMembership(filter, part);
    ContainsThen("," + csv + ",", "," + filter + ",", "," + part + ",");
    ContainmentIsMembership(csv, part);
  }

  ghost predicate FiltersExactly(filter: string) {
    forall ts :: AllClean(ts) ==> (TagClause(Joined(ts), filter) <==> filter in ts)
  }

  /** A filter finds exactly the lists it is in, for every list that can be stored, if and only if
      it is not itself a row of tags with commas between them. */
  lemma FiltersExactlyUnlessItIsARow(filter: string)
    requires filter != ""
    ensures FiltersExactly(filter) <==> !(',' in filter && AllClean(Parts(filter)))
  {
    if ',' !in filter {
      forall ts | AllClean(ts) ensures TagClause(Joined(ts), filter) <==> filter in ts { ClauseAgreesWithTheList(ts, filter); }
    } else if AllClean(Parts(filter)) {
      ARowIsFound(filter);
    } else {
      forall ts | AllClean(ts) ensures TagClause(Joined(ts), filter) <==> filter in ts { NoRowIsNotFound(ts, filter); }
    }
  }

  lemma ARowIsFound(filter: string)
    requires ',' in filter && AllClean(Parts(filter))
    ensures !FiltersExactly(filter)
  {
    var ts := Parts(filter);
    PartsAreTheTags(ts);
    PartsAreInjective(Joined(ts), filter);
    ClauseIsContainment(filter, filter);
    assert ("," + filter + ",")[0..] == "," + filter + ",";
    assert filter in ts ==> Clean(filter);
    assert AllClean(ts) && filter !in ts;
  }

  lemma NoRowIsNotFound(ts: seq<string>, filter: string)
    requires AllClean(ts) && ',' in filter && !AllClean(Parts(filter))
    ensures !TagClause(Joined(ts), filter) && filter !in ts
  {
    assert filter in ts ==> Clean(filter);
    assert |"," + filter + ","| > |"," + "" + ","|;
    if TagClause(Joined(ts), filter) {
      forall part | part in Parts(filter) ensures part in Parts(Joined(ts)) { FoundPartsAreTags(Joined(ts), filter, part); }
      if ts == [] {
        ClauseIsContainment("", filter);
      } else {
        PartsAreTheTags(ts);
      }
    }
  }

  // ---- validate_tags -------------------------------------------------------------------------

  datatype Item = Text(text: string) | NotText

  datatype Problem = NotArray | NotString | TooLong | Invalid

  const MAX_TAG := 40

  predicate Breaks(s: string) { ',' in s || '\n' in s || '\r' in s }

  /** What is wrong with one element; blank text is not wrong. */
  function Complaint(x: Item): Option<Problem> {
    match x
    case NotText => Some(NotString)
    case Text(s) =>
      if |Trim(s)| > MAX_TAG then Some(TooLong) else if Breaks(Trim(s)) then Some(Invalid) else None
  }

  /** The tags before the first element that is wrong, and what is wrong with it. */
  function Accepted(xs: seq<Item>): (seq<string>, Option<Problem>) {
    if xs == [] then ([], None)
    else if Complaint(xs[0]).Some? then ([], Complaint(xs[0]))
    else var (ts, p) := Accepted(xs[1..]); ((if Trim(xs[0].text) == [] then [] else [Trim(xs[0].text)]) + ts, p)
  }

  lemma AcceptedStep(xs: seq<Item>, i: nat, tags: seq<string>)
    requires i < |xs|
    ensures var (x, p) := (xs[i], Complaint(xs[i])); var (ts, q) := Accepted(xs[i..]);
      && (p.Some? ==> tags + ts == tags && q == p)
      && (p.None? ==> q == Accepted(xs[i + 1..]).1)
      && (p.None? ==> tags + ts == (if Trim(x.text) == [] then tags else tags + [Trim(x.text)]) + Accepted(xs[i + 1..]).0)
  { assert xs[i..][1..] == xs[i + 1..]; }

  method ValidateTags(body: Option<seq<Item>>) returns (tags: seq<string>, problem: Option<Problem>)
    ensures tags == if body.None? then [] else Accepted(body.value).0
    ensures problem == if body.None? then Some(NotArray) else Accepted(body.value).1
  {
    tags, problem := [], None;
    if body.None? { return [], Some(NotArray); }
    var xs := body.value;
    assert xs[0..] == xs;
    for i := 0 to |xs|
      invariant Accepted(xs).0 == tags + Accepted(xs[i..]).0
      invariant Accepted(xs).1 == Accepted(xs[i..]).1
    {
      AcceptedStep(xs, i, tags);
      if xs[i].NotText? { return tags, Some(NotString); }
      var s := TrimBlanks(xs[i].text);
      if s == "" { continue; }
      if |s| > MAX_TAG { return tags, Some(TooLong); }
      if Breaks(s) { return tags, Some(Invalid); }
      tags := tags + [s];
    }
  }

  /** Every list that validation lets through is stored and read back unchanged, and searching
      for a tag in it finds it. */
  lemma {:induction false} AcceptedTagsAreStorable(xs: seq<Item>)
    ensures var ts := Accepted(xs).0;
      && AllClean(ts) && Tags(Joined(ts)) == ts
      && forall t :: t in ts ==> |t| <= MAX_TAG && '\n' !in t && '\r' !in t && TagClause(Joined(ts), t)
  {
    var ts := Accepted(xs).0;
    AcceptedIsClean(xs);
    SplitUndoesJoin(ts);
    forall t | t in ts ensures TagClause(Joined(ts), t) { ClauseAgreesWithTheList(ts, t); }
  }

  lemma TrimmedIsFine(x: Item)
    requires Complaint(x).None?
    ensures x.Text? && |Trim(x.text)| <= MAX_TAG && '\n' !in Trim(x.text) && '\r' !in Trim(x.text)
  {}

  lemma {:induction false} AcceptedIsClean(xs: seq<Item>)
    ensures var ts := Accepted(xs).0;
      AllClean(ts) && forall t :: t in ts ==> |t| <= MAX_TAG && '\n' !in t && '\r' !in t
    ensures Accepted(xs).1.None? <==> forall x :: x in xs ==> Complaint(x).None?
    ensures Accepted(xs).1.None? ==> forall t :: t in Accepted(xs).0 <==> t != "" && exists x :: x in xs && t == Trim(x.text)
  {
    if xs != [] {
      var x, rest := xs[0], xs[1..];
      AcceptedIsClean(rest);
      assert xs == [x] + rest && forall y :: y in xs <==> y == x || y in rest;
      if Complaint(x).None? { TrimmedIsFine(x); }
    }
  }

  /** Text that trims to at most 40 characters and has no comma and no line break then. */
  predicate Fine(x: Item) {
    x.Text? && |Trim(x.text)| <= 40 && ',' !in Trim(x.text) && '\n' !in Trim(x.text) && '\r' !in Trim(x.text)
  }

  function Texts(xs: seq<Item>): seq<string> {
    if xs == [] then [] else [if xs[0].Text? then xs[0].text else ""] + Texts(xs[1..])
  }

  /** The first element that is not fine decides: the tags are the trimmed texts in front of it, without the
      blank ones and in their order, and the problem says what it is. */
  lemma {:induction false} TheFirstWrongElementDecides(xs: seq<Item>) returns (n: nat)
    ensures n <= |xs| && forall i :: 0 <= i < n ==> Fine(xs[i])
    ensures Accepted(xs).0 == Kept(Texts(xs[..n]))
    ensures Accepted(xs).1 == if n == |xs| then None
                              else if xs[n].NotText? then Some(NotString)
                              else if |Trim(xs[n].text)| > 40 then Some(TooLong) else Some(Invalid)
    ensures n < |xs| ==> !Fine(xs[n])
  {
    n := 0;
    if xs != [] && Fine(xs[0]) {
      var m := TheFirstWrongElementDecides(xs[1..]);
      n := m + 1;
      forall i | 0 < i < n ensures Fine(xs[i]) { assert xs[1..][i - 1] == xs[i]; }
      assert xs[..n][1..] == xs[1..][..m];
      KeptCons(xs[0].text, Texts(xs[1..][..m]));
    }
  }
}
