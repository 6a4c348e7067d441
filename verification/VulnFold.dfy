/** The fold over govulncheck's findings (pkg/scanner/vuln.go): one vulnerability for each module and advisory. */
module VulnFold {
  import opened GradeTypes
  import opened Ordering
  import opened CallPaths

  const MAX_CALLED_SYMBOLS := 20

  datatype GvFinding = GvFinding(osv: string, trace: seq<TraceEntry>)

  /** A result is keyed by the affected module and the advisory. */
  datatype VulnKey = VulnKey(module_: string, osv: string)

  /** best is CallPath and CallTrace; symbols is CalledSymbols. */
  datatype Vuln = Vuln(id: string, reach: Reach, path: seq<string>, frames: seq<CallFrame>, symbols: seq<string>)

  function ReachabilityRank(r: Reach): int {
    match r case Called => 3 case Imported => 2 case Required => 1 case Undetermined => 0
  }

  /** The module of the first frame that names one. */
  function ModuleOf(trace: seq<TraceEntry>): string {
    if trace == [] then "" else if trace[0].module_ != "" then trace[0].module_ else ModuleOf(trace[1..])
  }

  /** Findings of an unknown advisory, and findings that name no module, are left out. */
  function KeyOf(f: GvFinding, osvs: set<string>): Option<VulnKey> {
    if f.osv in osvs && ModuleOf(f.trace) != "" then Some(VulnKey(ModuleOf(f.trace), f.osv)) else None
  }

  /** The vulnerable symbol of a called finding, if its innermost frame names one. */
  function SinkOf(f: GvFinding): seq<string> {
    if ReachOf(f.trace) == Called && f.trace != [] && f.trace[0].func_ != "" then [FrameName(f.trace[0])] else []
  }

  function PathFrom(f: GvFinding, roots: set<string>): Candidate {
    if ReachOf(f.trace) == Called then CandidateOf(f.trace, roots) else NO_PATH
  }

  // ---- One key's findings, in the order of their arrival ----

  function Mine(fs: seq<GvFinding>, osvs: set<string>, k: VulnKey): (m: seq<GvFinding>)
    ensures forall f :: f in m <==> f in fs && KeyOf(f, osvs) == Some(k)
  {
    if fs == [] then []
    else
      var n := |fs| - 1;
      assert fs == fs[..n] + [fs[n]];
      if KeyOf(fs[n], osvs) == Some(k) then Mine(fs[..n], osvs, k) + [fs[n]] else Mine(fs[..n], osvs, k)
  }

  function TopReach(m: seq<GvFinding>): Reach
    requires m != []
  {
    var last := ReachOf(m[|m| - 1].trace);
    if |m| == 1 then last
    else
      var before := TopReach(m[..|m| - 1]);
      if ReachabilityRank(last) > ReachabilityRank(before) then last else before
  }

  /** The path kept so far is replaced by one that is preferred to it. */
  function BestPath(m: seq<GvFinding>, roots: set<string>): Candidate {
    if m == [] then NO_PATH
    else
      var before, c := BestPath(m[..|m| - 1], roots), PathFrom(m[|m| - 1], roots);
      if PreferCalled(c, before) then c else before
  }

  function Sinks(m: seq<GvFinding>): seq<string> {
    if m == [] then [] else Sinks(m[..|m| - 1]) + SinkOf(m[|m| - 1])
  }

  // ---- The order of arrival does not matter ----

  lemma {:induction false} TopReachIsMax(m: seq<GvFinding>)
    requires m != []
    ensures exists f :: f in m && ReachOf(f.trace) == TopReach(m)
    ensures forall f :: f in m ==> ReachabilityRank(ReachOf(f.trace)) <= ReachabilityRank(TopReach(m))
  {
    hide ReachOf, ReachabilityRank;
    var n := |m| - 1;
    assert m[n] in m;
    if n == 0 {
      assert forall f :: f in m ==> f == m[0];
    } else {
      var init := m[..n];
      TopReachIsMax(init);
      assert forall f :: f in m <==> f in init || f == m[n];
      var g :| g in init && ReachOf(g.trace) == TopReach(init);
      assert g in m;
    }
  }

  /** govulncheck reached the vulnerable symbol: a frame has a position, or the innermost one names a function. */
  predicate TraceCalls(trace: seq<TraceEntry>) {
    trace != [] && (trace[0].func_ != "" || exists t :: t in trace && t.position.Some?)
  }

  /** It reached the vulnerable package. */
  predicate TraceImports(trace: seq<TraceEntry>) { trace != [] && trace[0].pkg != "" }

  /** What the entry of a key is reported as: called when some finding's trace is, imported when none is and some finding's
      innermost frame names a package, and otherwise required. */
  lemma ReachExactly(m: seq<GvFinding>, roots: set<string>, id: string)
    requires m != []
    ensures var calls, imports := exists f :: f in m && TraceCalls(f.trace), exists f :: f in m && TraceImports(f.trace);
      VulnOf(m, roots, id).reach == if calls then Called else if imports then Imported else Required
  {
    TopReachIsMax(m);
    forall f: GvFinding ensures ReachOf(f.trace) == if TraceCalls(f.trace) then Called else if TraceImports(f.trace) then Imported else Required {}
    hide ReachOf, TraceCalls, TraceImports, BestPath, Sinks, TopReach;
  }

  /** The kept path is one of the findings' own, and no finding's path is preferred to it. */
  lemma {:induction false} BestPathIsLeast(m: seq<GvFinding>, roots: set<string>)
    ensures BestPath(m, roots) == NO_PATH || exists f :: f in m && BestPath(m, roots) == PathFrom(f, roots)
    ensures forall f :: f in m ==> !PreferCalled(PathFrom(f, roots), BestPath(m, roots))
    ensures !PreferCalled(NO_PATH, BestPath(m, roots))
  {
    hide PathFrom;
    if m != [] {
      var n := |m| - 1;
      BestPathIsLeast(m[..n], roots);
      assert m == m[..n] + [m[n]];
      var before, c := BestPath(m[..n], roots), PathFrom(m[n], roots);
      var best := BestPath(m, roots);
      PreferCalledIsAnOrder(c, before, c);
      PreferCalledIsAnOrder(c, c, c);
      forall f | f in m ensures !PreferCalled(PathFrom(f, roots), best) {
        if f in m[..n] && best == c { PreferCalledIsAnOrder(PathFrom(f, roots), before, c); }
      }
      assert m[n] in m;
    }
  }

  lemma {:induction false} SinksAre(m: seq<GvFinding>, x: string)
    ensures x in Sinks(m) <==> exists f :: f in m && x in SinkOf(f)
  {
    hide SinkOf;
    if m != [] {
      var n := |m| - 1;
      SinksAre(m[..n], x);
      assert m == m[..n] + [m[n]];
    }
  }

  /** The trace only formats a message: a frame in fmt or log, or a method named Error or String. */
  predicate TraceFormats(trace: seq<TraceEntry>) {
    exists t :: t in trace && (t.pkg == "fmt" || t.pkg == "log"
      || (t.receiver != "" && (BeforeDollar(t.func_) == "Error" || BeforeDollar(t.func_) == "String")))
  }

  /** A called finding has a path exactly when a frame names a function. */
  lemma CalledPath(f: GvFinding, roots: set<string>)
    ensures PathFrom(f, roots).path != [] <==> TraceCalls(f.trace) && exists t :: t in f.trace && t.func_ != ""
    ensures PathFrom(f, roots).path != [] ==> (PathFrom(f, roots).formats <==> TraceFormats(f.trace))
  {
    CondensedShape(f.trace, roots);
    hide Condensed;
  }

  /** The kept path: there is one exactly when some called finding names a function; one that does more than format a message
      wins; and none of its kind is shorter. */
  lemma KeptPathIsShortest(m: seq<GvFinding>, roots: set<string>)
    ensures var best := BestPath(m, roots);
      && (best.path != [] <==> exists f :: f in m && PathFrom(f, roots).path != [])
      && (best.path != [] && best.formats ==> forall f :: f in m && PathFrom(f, roots).path != [] ==> TraceFormats(f.trace))
      && (forall f :: f in m && PathFrom(f, roots).path != [] && (TraceFormats(f.trace) <==> best.formats) ==>
            |best.path| <= |PathFrom(f, roots).path|)
  {
    BestPathIsLeast(m, roots);
    var best := BestPath(m, roots);
    forall f: GvFinding ensures PathFrom(f, roots).path != [] ==> (PathFrom(f, roots).formats <==> TraceFormats(f.trace)) { CalledPath(f, roots); }
    forall f | f in m && PathFrom(f, roots).path != []
      ensures best.path != [] && (best.formats ==> TraceFormats(f.trace))
      ensures (TraceFormats(f.trace) <==> best.formats) ==> |best.path| <= |PathFrom(f, roots).path|
    {
      if best.path != [] { PreferredIsShorter(PathFrom(f, roots), best); }
    }
    hide PathFrom, PreferCalled, TraceFormats, BestPath;
  }

  /** The module of a finding is the first that a frame of its trace names. */
  lemma {:induction false} ModuleIsFirst(trace: seq<TraceEntry>)
    ensures ModuleOf(trace) == "" <==> forall t :: t in trace ==> t.module_ == ""
    ensures ModuleOf(trace) != "" ==>
      exists i :: 0 <= i < |trace| && trace[i].module_ == ModuleOf(trace) && forall j :: 0 <= j < i ==> trace[j].module_ == ""
  {
    if trace != [] {
      var rest := trace[1..];
      ModuleIsFirst(rest);
      assert trace == [trace[0]] + rest;
      if trace[0].module_ == "" && ModuleOf(rest) != "" {
        var i :| 0 <= i < |rest| && rest[i].module_ == ModuleOf(rest) && forall j :: 0 <= j < i ==> rest[j].module_ == "";
        assert trace[i + 1].module_ == ModuleOf(trace);
        forall j | 0 <= j < i + 1 ensures trace[j].module_ == "" { if j > 0 { assert rest[j - 1] == trace[j]; } }
      }
    }
  }

  /** The symbols of an entry are the names of its called findings' innermost functions: all of them up to twenty, otherwise
      the first twenty in ascending order. */
  lemma SymbolsExactly(m: seq<GvFinding>, roots: set<string>, id: string)
    requires m != []
    ensures var s, all := VulnOf(m, roots, id).symbols, set f | f in m && TraceCalls(f.trace) && f.trace[0].func_ != "" :: FrameName(f.trace[0]);
      && Ascending(s) && (forall x :: x in s ==> x in all) && |s| <= 20
      && (|s| < 20 ==> forall x :: x in all ==> x in s)
      && (forall x, y :: x in s && y in all && y !in s ==> Less(x, y))
  {
    var all := set f | f in m && TraceCalls(f.trace) && f.trace[0].func_ != "" :: FrameName(f.trace[0]);
    forall x ensures x in Sinks(m) <==> x in all { SinkNames(m, x); }
    assert SetOf(Sinks(m)) == all;
    FirstOnesOf(Sorted(all), all);
    hide BestPath, TopReach, Sinks, FrameName;
  }

  lemma SinkNames(m: seq<GvFinding>, x: string)
    ensures x in Sinks(m) <==> exists f :: f in m && TraceCalls(f.trace) && f.trace[0].func_ != "" && x == FrameName(f.trace[0])
  {
    SinksAre(m, x);
    hide FrameName;
  }

  lemma FirstOnesOf(s: seq<string>, all: set<string>)
    requires Ascending(s) && forall x :: x in s <==> x in all
    ensures var r := FirstOnes(s);
      && Ascending(r) && (forall x :: x in r ==> x in all) && |r| <= 20 && (|r| < 20 ==> forall x :: x in all ==> x in r)
      && (forall x, y :: x in r && y in all && y !in r ==> Less(x, y))
  {
    hide Less;
    forall x, y | x in FirstOnes(s) && y in all && y !in FirstOnes(s) ensures Less(x, y) {
      var i :| 0 <= i < |FirstOnes(s)| && FirstOnes(s)[i] == x;
      var j :| 0 <= j < |s| && s[j] == y;
      assert forall k :: 0 <= k < |FirstOnes(s)| ==> FirstOnes(s)[k] == s[k];
    }
  }

  function SetOf(s: seq<string>): set<string> { set x | x in s }

  function FirstOnes(s: seq<string>): seq<string> { if |s| > MAX_CALLED_SYMBOLS then s[..MAX_CALLED_SYMBOLS] else s }

  /** The vulnerability of a key: what the fold leaves after the last loop. */
  ghost function VulnOf(m: seq<GvFinding>, roots: set<string>, id: string): Vuln
    requires m != []
  {
    var best := BestPath(m, roots);
    Vuln(id, TopReach(m), best.path, best.frames, FirstOnes(Sorted(SetOf(Sinks(m)))))
  }

  /** The same findings in any order, with any repetitions: the same reachability and called symbols, and call paths that
      read the same, entry count, joined names, message kind and every source position included. */
  lemma ArrivalOrderNeverMatters(a: seq<GvFinding>, b: seq<GvFinding>, roots: set<string>, id: string)
    requires a != [] && b != [] && forall f :: f in a <==> f in b
    ensures var v, w := VulnOf(a, roots, id), VulnOf(b, roots, id);
      && v.reach == w.reach && v.symbols == w.symbols
      && |v.path| == |w.path| && Join(v.path) == Join(w.path)
      && |v.frames| == |w.frames| && (forall i :: 0 <= i < |v.frames| ==> v.frames[i].position == w.frames[i].position)
    ensures Tied(BestPath(a, roots), BestPath(b, roots))
    ensures (forall f :: f in a ==> PlainTrace(f)) ==> VulnOf(a, roots, id).path == VulnOf(b, roots, id).path
  {
    hide ReachOf, PathFrom, SinkOf, PreferCalled, Join, PlainTrace;
    TopReachIsMax(a);
    TopReachIsMax(b);
    BestPathIsLeast(a, roots);
    BestPathIsLeast(b, roots);
    forall x ensures x in Sinks(a) <==> x in Sinks(b) {
      SinksAre(a, x);
      SinksAre(b, x);
    }
    assert SetOf(Sinks(a)) == SetOf(Sinks(b));
    FramesMatch(a, roots);
    FramesMatch(b, roots);
    TiedShowTheSame(BestPath(a, roots), BestPath(b, roots));
    if forall f :: f in a ==> PlainTrace(f) {
      PlainBest(a, roots);
      PlainBest(b, roots);
      JoinInjective(BestPath(a, roots).path, BestPath(b, roots).path);
    }
  }

  /** No name in the trace holds the separator of the tiebreak. */
  ghost predicate PlainTrace(f: GvFinding) { forall t :: t in f.trace ==> Plain(t) }

  lemma {:induction false} PlainBest(m: seq<GvFinding>, roots: set<string>)
    requires forall f :: f in m ==> PlainTrace(f)
    ensures PlainPath(BestPath(m, roots).path)
  {
    hide ReachOf, Condensed, PreferCalled, FormatsMessage, Plain;
    BestPathIsLeast(m, roots);
    if f :| f in m && BestPath(m, roots) == PathFrom(f, roots) { PlainCondensed(f.trace, roots); }
  }

  // ---- Exactly when the call path itself is fixed ----

  lemma {:induction false} FirstStays(f: GvFinding, m: seq<GvFinding>, roots: set<string>)
    requires PathFrom(f, roots).path != [] && forall g :: g in m ==> !PreferCalled(PathFrom(g, roots), PathFrom(f, roots))
    ensures BestPath([f] + m, roots) == PathFrom(f, roots)
  {
    hide PathFrom;
    var all := [f] + m;
    if m == [] {
      assert all[..0] == [] && all[0] == f;
    } else {
      var n := |m| - 1;
      assert all[..|all| - 1] == [f] + m[..n] && all[|all| - 1] == m[n];
      FirstStays(f, m[..n], roots);
    }
  }

  ghost predicate SameFindings(a: seq<GvFinding>, b: seq<GvFinding>) { b != [] && forall f :: f in b <==> f in a }

  /** The call path is the same in every listing of the findings if and only if the findings that tie with the kept one
      share its path. */
  lemma PathFixedExactly(a: seq<GvFinding>, roots: set<string>, id: string)
    requires a != []
    ensures (forall b :: SameFindings(a, b) ==> VulnOf(b, roots, id).path == VulnOf(a, roots, id).path)
      <==> forall f :: f in a && Tied(PathFrom(f, roots), BestPath(a, roots)) ==> PathFrom(f, roots).path == BestPath(a, roots).path
  {
    hide PathFrom, PreferCalled, BestPath, VulnOf, Tied;
    BestIs(a, roots, id);
    if f :| f in a && Tied(PathFrom(f, roots), BestPath(a, roots)) && PathFrom(f, roots).path != BestPath(a, roots).path {
      TiedCanBeFirst(a, f, roots);
      BestIs([f] + a, roots, id);
      assert SameFindings(a, [f] + a);
    } else {
      forall b | SameFindings(a, b) ensures VulnOf(b, roots, id).path == VulnOf(a, roots, id).path {
        KeptIsTied(a, b, roots);
        BestIs(b, roots, id);
      }
    }
  }

  /** The whole call trace, module versions included, is the same in every listing if and only if the findings that tie with
      the kept one share its frames. */
  lemma TraceFixedExactly(a: seq<GvFinding>, roots: set<string>, id: string)
    requires a != []
    ensures (forall b :: SameFindings(a, b) ==> VulnOf(b, roots, id).frames == VulnOf(a, roots, id).frames)
      <==> forall f :: f in a && Tied(PathFrom(f, roots), BestPath(a, roots)) ==> PathFrom(f, roots).frames == BestPath(a, roots).frames
  {
    hide PathFrom, PreferCalled, BestPath, VulnOf, Tied;
    BestIs(a, roots, id);
    if f :| f in a && Tied(PathFrom(f, roots), BestPath(a, roots)) && PathFrom(f, roots).frames != BestPath(a, roots).frames {
      TiedCanBeFirst(a, f, roots);
      BestIs([f] + a, roots, id);
      assert SameFindings(a, [f] + a);
    } else {
      forall b | SameFindings(a, b) ensures VulnOf(b, roots, id).frames == VulnOf(a, roots, id).frames {
        KeptIsTied(a, b, roots);
        BestIs(b, roots, id);
      }
    }
  }

  lemma BestIs(m: seq<GvFinding>, roots: set<string>, id: string)
    requires m != []
    ensures VulnOf(m, roots, id).path == BestPath(m, roots).path && VulnOf(m, roots, id).frames == BestPath(m, roots).frames
  {
  }

  lemma PathsMatchFrames(f: GvFinding, roots: set<string>)
    ensures PathFrom(f, roots).path == PathOf(PathFrom(f, roots).frames)
  {
    hide Condensed, ReachOf, FormatsMessage;
  }

  lemma TiedHasPath(a: Candidate, b: Candidate)
    requires Tied(a, b) && a != b && a.path == PathOf(a.frames) && b.path == PathOf(b.frames)
    ensures a.path != [] || (b.path == a.path && b.frames == a.frames)
  {
  }

  /** A finding that ties with the kept one is kept itself when it is listed first. */
  lemma TiedCanBeFirst(a: seq<GvFinding>, f: GvFinding, roots: set<string>)
    requires a != [] && f in a && Tied(PathFrom(f, roots), BestPath(a, roots))
    requires PathFrom(f, roots).path != BestPath(a, roots).path || PathFrom(f, roots).frames != BestPath(a, roots).frames
    ensures BestPath([f] + a, roots) == PathFrom(f, roots)
  {
    hide PathFrom, PreferCalled, BestPath;
    var best := BestPath(a, roots);
    BestPathIsLeast(a, roots);
    PathsMatchFrames(f, roots);
    FramesMatch(a, roots);
    TiedHasPath(PathFrom(f, roots), best);
    forall g | g in a ensures !PreferCalled(PathFrom(g, roots), PathFrom(f, roots)) {
      PreferCalledIsAnOrder(PathFrom(g, roots), best, PathFrom(f, roots));
    }
    FirstStays(f, a, roots);
  }

  /** What another listing keeps is a finding's that ties, unless both keep nothing. */
  lemma KeptIsTied(a: seq<GvFinding>, b: seq<GvFinding>, roots: set<string>)
    requires a != [] && SameFindings(a, b)
    ensures (exists f :: f in a && BestPath(b, roots) == PathFrom(f, roots) && Tied(PathFrom(f, roots), BestPath(a, roots)))
      || (BestPath(b, roots).path == BestPath(a, roots).path && BestPath(b, roots).frames == BestPath(a, roots).frames)
  {
    ArrivalOrderNeverMatters(a, b, roots, "");
    TiedBack(BestPath(a, roots), BestPath(b, roots));
    BestPathIsLeast(b, roots);
    FramesMatch(a, roots);
    FramesMatch(b, roots);
    hide PathFrom, PreferCalled, BestPath, Tied;
    if BestPath(b, roots) == NO_PATH { NothingTied(BestPath(a, roots)); }
  }

  lemma TiedBack(a: Candidate, b: Candidate)
    requires Tied(a, b)
    ensures Tied(b, a)
  {
  }

  lemma NothingTied(c: Candidate)
    requires Tied(NO_PATH, c) && c.path == PathOf(c.frames)
    ensures c.path == [] && c.frames == []
  {
  }

  const NUL_LEFT := GvFinding("GO-1", [TraceEntry("m", "", "", "z", "", None), TraceEntry("m", "", "", "x\0y", "", None)])
  const NUL_RIGHT := GvFinding("GO-1", [TraceEntry("m", "", "", "y\0z", "", None), TraceEntry("m", "", "", "x", "", None)])

  lemma {:induction false} TwoFrames(sink: string, entry: string, roots: set<string>)
    requires sink != "" && entry != "" && '$' !in sink && '$' !in entry && "" !in roots
    ensures var c := CandidateOf([TraceEntry("m", "", "", sink, "", None), TraceEntry("m", "", "", entry, "", None)], roots);
      c.path == [entry, sink] && !c.formats && |c.frames| == 2 && c.frames[0].position == c.frames[1].position == NO_POSITION
  {
    var s, e := TraceEntry("m", "", "", sink, "", None), TraceEntry("m", "", "", entry, "", None);
    var trace := [s, e];
    NoDollar(sink);
    NoDollar(entry);
    assert FuncFrames(trace[1..]) == [e] by { assert trace[1..] == [e] && [e][1..] == []; }
    assert FuncFrames(trace) == [e, s];
    var fr := [e, s];
    assert KeptUpTo(fr, roots, 1) == [NewCallFrame(e, roots)] by { assert KeptUpTo(fr, roots, 0) == []; }
    assert KeptUpTo(fr, roots, 2) == [NewCallFrame(e, roots), NewCallFrame(s, roots)];
    assert PathOf([NewCallFrame(e, roots), NewCallFrame(s, roots)]) == [entry, sink];
  }

  lemma {:induction false} NoDollar(s: string)
    requires '$' !in s
    ensures BeforeDollar(s) == s
  {
    if s != "" {
      NoDollar(s[1..]);
      assert s == [s[0]] + s[1..];
    }
  }

  lemma {:induction false} NulTies()
    ensures Join(["x\0y", "z"]) == Join(["x", "y\0z"])
    ensures !Less(Join(["x\0y", "z"]), Join(["x\0y", "z"]))
  {
    LessIrreflexive(Join(["x\0y", "z"]));
    assert ["x\0y", "z"][1..] == ["z"] && ["x", "y\0z"][1..] == ["y\0z"];
  }

  lemma NulCandidatesTie(l: Candidate, r: Candidate)
    requires l.path == ["x\0y", "z"] && r.path == ["x", "y\0z"] && l.formats == r.formats && |l.frames| == |r.frames| == 2
    requires l.frames[0].position == l.frames[1].position == r.frames[0].position == r.frames[1].position
    ensures Tied(l, r)
  {
    NulTies();
    hide Join, Less;
    EqualPositions(l.frames, r.frames);
    EqualPositions(r.frames, l.frames);
    hide ComparePositions;
  }

  lemma NulPaths()
    ensures PathFrom(NUL_LEFT, {}).path == ["x\0y", "z"] && PathFrom(NUL_RIGHT, {}).path == ["x", "y\0z"]
    ensures Tied(PathFrom(NUL_LEFT, {}), PathFrom(NUL_RIGHT, {}))
  {
    hide CandidateOf, PreferCalled;
    TwoFrames("z", "x\0y", {});
    TwoFrames("y\0z", "x", {});
    NulCandidatesTie(PathFrom(NUL_LEFT, {}), PathFrom(NUL_RIGHT, {}));
  }

  /** The joined string is not the path: where a name holds the separator, two different paths tie, and the first to arrive is
      kept. */
  lemma ArrivalOrderCanMatter(id: string)
    ensures VulnOf([NUL_LEFT, NUL_RIGHT], {}, id).path == ["x\0y", "z"]
    ensures VulnOf([NUL_RIGHT, NUL_LEFT], {}, id).path == ["x", "y\0z"]
  {
    hide PathFrom, BestPath, VulnOf, PreferCalled;
    NulPaths();
    FirstStays(NUL_LEFT, [NUL_RIGHT], {});
    FirstStays(NUL_RIGHT, [NUL_LEFT], {});
    assert [NUL_LEFT] + [NUL_RIGHT] == [NUL_LEFT, NUL_RIGHT] && [NUL_RIGHT] + [NUL_LEFT] == [NUL_RIGHT, NUL_LEFT];
    BestIs([NUL_LEFT, NUL_RIGHT], {}, id);
    BestIs([NUL_RIGHT, NUL_LEFT], {}, id);
  }

  function AtVersion(version: string): GvFinding { GvFinding("GO-1", [TraceEntry("m", version, "", "z", "", None)]) }

  lemma {:induction false} OneFrame(version: string)
    ensures var c := PathFrom(AtVersion(version), {});
      c.path == ["z"] && !c.formats && |c.frames| == 1 && c.frames[0].version == version && c.frames[0].position == NO_POSITION
  {
    var t := TraceEntry("m", version, "", "z", "", None);
    NoDollar("z");
    assert FuncFrames([t]) == [t] by { assert [t][1..] == []; }
    assert KeptUpTo([t], {}, 1) == [NewCallFrame(t, {})] by { assert KeptUpTo([t], {}, 0) == []; }
    assert PathOf([NewCallFrame(t, {})]) == ["z"];
  }

  lemma VersionsTie(l: Candidate, r: Candidate)
    requires l.path == r.path && l.formats == r.formats && |l.frames| == |r.frames| == 1
    requires l.frames[0].position == r.frames[0].position
    ensures Tied(l, r)
  {
    LessIrreflexive(Join(l.path));
    hide Join, Less;
    EqualPositions(l.frames, r.frames);
    EqualPositions(r.frames, l.frames);
    hide ComparePositions;
  }

  /** The positions are not the trace: two findings that differ in a module version only tie, and the first to arrive is kept. */
  lemma TraceCanDiffer(id: string)
    ensures VulnOf([AtVersion("v1"), AtVersion("v2")], {}, id).frames != VulnOf([AtVersion("v2"), AtVersion("v1")], {}, id).frames
  {
    OneFrame("v1");
    OneFrame("v2");
    hide PathFrom, BestPath, VulnOf, PreferCalled, AtVersion;
    VersionsTie(PathFrom(AtVersion("v1"), {}), PathFrom(AtVersion("v2"), {}));
    FirstStays(AtVersion("v1"), [AtVersion("v2")], {});
    FirstStays(AtVersion("v2"), [AtVersion("v1")], {});
    assert [AtVersion("v1")] + [AtVersion("v2")] == [AtVersion("v1"), AtVersion("v2")];
    assert [AtVersion("v2")] + [AtVersion("v1")] == [AtVersion("v2"), AtVersion("v1")];
    BestIs([AtVersion("v1"), AtVersion("v2")], {}, id);
    BestIs([AtVersion("v2"), AtVersion("v1")], {}, id);
  }

  lemma {:induction false} FramesMatch(m: seq<GvFinding>, roots: set<string>)
    ensures var c := BestPath(m, roots); c.path == PathOf(c.frames)
  {
    hide Condensed, ReachOf, PreferCalled, FormatsMessage;
    if m != [] { FramesMatch(m[..|m| - 1], roots); }
  }

  /** Merging one more pass: a called finding is never lost, and every kept symbol is a called finding's own. */
  lemma CalledStaysCalled(m: seq<GvFinding>, roots: set<string>, id: string, f: GvFinding)
    requires f in m && ReachOf(f.trace) == Called
    ensures VulnOf(m, roots, id).reach == Called
    ensures VulnOf(m, roots, id).path == [] ==> forall t :: t in f.trace ==> t.func_ == ""
  {
    hide ReachOf, PreferCalled;
    TopReachIsMax(m);
    BestPathIsLeast(m, roots);
    CalledHasPath(f, roots, BestPath(m, roots));
    hide BestPath, TopReach;
  }

  lemma CalledHasPath(f: GvFinding, roots: set<string>, best: Candidate)
    requires ReachOf(f.trace) == Called && !PreferCalled(PathFrom(f, roots), best)
    ensures best.path == [] ==> forall t :: t in f.trace ==> t.func_ == ""
  {
    hide ReachOf, FormatsMessage, Condensed;
    CondensedShape(f.trace, roots);
  }

  // ---- capCalledSymbols ----

  /** slices.Compact on a sorted list leaves the set in ascending order. */
  method Compact(s: seq<string>) returns (r: seq<string>)
    requires NonDescending(s)
    ensures r == Sorted(SetOf(s))
  {
    hide Less;
    r := [];
    for i := 0 to |s|
      invariant Ascending(r) && (forall x :: x in r <==> x in s[..i])
      invariant (r == [] <==> i == 0) && (r != [] ==> r[|r| - 1] == s[i - 1])
    {
      if i == 0 || s[i] != s[i - 1] {
        if i > 0 {
          LessTotal(s[i], s[i - 1]);
          forall k | 0 <= k < |r| ensures Less(r[k], s[i]) {
            if k < |r| - 1 { LessTransitive(r[k], r[|r| - 1], s[i]); }
          }
        }
        r := r + [s[i]];
      }
    }
    assert s[..|s|] == s;
    AscendingUnique(r, Sorted(SetOf(s)));
  }

  method CapCalledSymbols(sinks: seq<string>) returns (r: seq<string>)
    ensures r == FirstOnes(Sorted(SetOf(sinks)))
  {
    if |sinks| == 0 {
      return [];
    }
    SortNonDescending(sinks);
    r := Compact(SortList(sinks));
    assert SetOf(SortList(sinks)) == SetOf(sinks);
    if |r| > MAX_CALLED_SYMBOLS {
      r := r[..MAX_CALLED_SYMBOLS];
    }
  }

  // ---- The loops ----

  /** The maps of parseGovulncheckJSON: seen leads to a key's place in its module's list. */
  datatype Fold = Fold(results: map<string, seq<Vuln>>, seen: map<VulnKey, nat>, sinks: map<VulnKey, seq<string>>, formats: map<VulnKey, bool>)

  function SinksAt(t: Fold, k: VulnKey): seq<string> { if k in t.sinks then t.sinks[k] else [] }

  function FormatsAt(t: Fold, k: VulnKey): bool { k in t.formats && t.formats[k] }

  predicate Placed(t: Fold, k: VulnKey) {
    k in t.seen && k.module_ in t.results && t.seen[k] < |t.results[k.module_]| && t.results[k.module_][t.seen[k]].id == k.osv
  }

  function VulnAt(t: Fold, k: VulnKey): Vuln
    requires Placed(t, k)
  {
    t.results[k.module_][t.seen[k]]
  }

  /** The key's entry holds what its findings so far fold to; its symbols come last. */
  ghost predicate Holds(t: Fold, k: VulnKey, m: seq<GvFinding>, roots: set<string>)
    requires m != []
  {
    var best := BestPath(m, roots);
    && Placed(t, k) && VulnAt(t, k) == Vuln(k.osv, TopReach(m), best.path, best.frames, [])
    && SinksAt(t, k) == Sinks(m) && (best.path != [] ==> FormatsAt(t, k) == best.formats)
  }

  /** Every entry of a list is the place of its own key. */
  ghost predicate OwnPlace(t: Fold) {
    forall mod, j :: mod in t.results && 0 <= j < |t.results[mod]| ==>
      VulnKey(mod, t.results[mod][j].id) in t.seen && t.seen[VulnKey(mod, t.results[mod][j].id)] == j
  }

  ghost predicate FoldOf(t: Fold, fs: seq<GvFinding>, osvs: set<string>, roots: set<string>) {
    && t.sinks.Keys <= t.seen.Keys
    && (forall k :: k in t.seen <==> Mine(fs, osvs, k) != [])
    && (forall k :: k in t.seen ==> Holds(t, k, Mine(fs, osvs, k), roots))
    && OwnPlace(t)
  }

  lemma OneMore(fs: seq<GvFinding>, f: GvFinding, osvs: set<string>, k: VulnKey)
    ensures Mine(fs + [f], osvs, k) == if KeyOf(f, osvs) == Some(k) then Mine(fs, osvs, k) + [f] else Mine(fs, osvs, k)
  {
    assert (fs + [f])[..|fs|] == fs;
  }

  lemma SkippedStep(t: Fold, fs: seq<GvFinding>, f: GvFinding, osvs: set<string>, roots: set<string>)
    requires FoldOf(t, fs, osvs, roots) && KeyOf(f, osvs) == None
    ensures FoldOf(t, fs + [f], osvs, roots)
  {
    hide Holds, OwnPlace, KeyOf, Mine;
    forall k ensures Mine(fs + [f], osvs, k) == Mine(fs, osvs, k) { OneMore(fs, f, osvs, k); }
  }

  lemma OtherHolds(t: Fold, u: Fold, k: VulnKey, j: VulnKey, m: seq<GvFinding>, roots: set<string>)
    requires OthersSame(t, u, k) && j != k && m != [] && Holds(t, j, m, roots)
    ensures Holds(u, j, m, roots)
  {
    hide BestPath, TopReach, Sinks, SinksAt, FormatsAt, VulnAt;
  }

  /** A step that leaves the other keys alone and folds f into k's entry. */
  lemma KeyStep(t: Fold, u: Fold, fs: seq<GvFinding>, f: GvFinding, osvs: set<string>, roots: set<string>, k: VulnKey)
    requires FoldOf(t, fs, osvs, roots) && KeyOf(f, osvs) == Some(k) && OwnPlace(u)
    requires u.sinks.Keys <= u.seen.Keys && k in u.seen && forall j :: j != k ==> (j in u.seen <==> j in t.seen)
    requires Holds(u, k, Mine(fs, osvs, k) + [f], roots)
    requires OthersSame(t, u, k)
    ensures FoldOf(u, fs + [f], osvs, roots)
  {
    hide Holds, OwnPlace, KeyOf, Mine, Placed, OthersSame;
    forall j | j != k && j in t.seen ensures Holds(u, j, Mine(fs, osvs, j), roots) {
      OtherHolds(t, u, k, j, Mine(fs, osvs, j), roots);
    }
    forall j ensures Mine(fs + [f], osvs, j) == if j == k then Mine(fs, osvs, k) + [f] else Mine(fs, osvs, j) { OneMore(fs, f, osvs, j); }
  }

  /** What one more finding of a key does to the parts of its entry. */
  lemma FoldOneMore(m: seq<GvFinding>, f: GvFinding, roots: set<string>)
    ensures TopReach(m + [f]) ==
      if m == [] || ReachabilityRank(ReachOf(f.trace)) > ReachabilityRank(TopReach(m)) then ReachOf(f.trace) else TopReach(m)
    ensures BestPath(m + [f], roots) ==
      if PreferCalled(PathFrom(f, roots), BestPath(m, roots)) then PathFrom(f, roots) else BestPath(m, roots)
    ensures Sinks(m + [f]) == Sinks(m) + SinkOf(f)
  {
    hide ReachOf, PathFrom, SinkOf, PreferCalled;
    assert (m + [f])[..|m|] == m;
  }

  lemma FirstPath(f: GvFinding, roots: set<string>)
    ensures BestPath([], roots) == NO_PATH && Sinks([]) == []
    ensures PreferCalled(PathFrom(f, roots), NO_PATH) <==> PathFrom(f, roots).path != []
    ensures PathFrom(f, roots).path == [] ==> PathFrom(f, roots).frames == []
    ensures ReachOf(f.trace) != Called ==> PathFrom(f, roots) == NO_PATH && SinkOf(f) == []
  {
    hide ReachOf, Condensed, FormatsMessage;
  }

  method AppendCalledSink(sinks: seq<string>, f: GvFinding) returns (r: seq<string>)
    requires ReachOf(f.trace) == Called
    ensures r == sinks + SinkOf(f)
  {
    if |f.trace| == 0 || f.trace[0].func_ == "" {
      return sinks;
    }
    return sinks + [FrameName(f.trace[0])];
  }

  method FindModule(trace: seq<TraceEntry>) returns (modPath: string)
    ensures modPath == ModuleOf(trace)
  {
    modPath := "";
    for i := 0 to |trace|
      invariant modPath == "" && ModuleOf(trace) == ModuleOf(trace[i..])
    {
      assert trace[i..][1..] == trace[i + 1..];
      if trace[i].module_ != "" {
        return trace[i].module_;
      }
    }
  }

  /** Other keys' entries, symbols and message kinds stay as they are. */
  ghost predicate OthersSame(t: Fold, u: Fold, key: VulnKey) {
    forall j :: j != key && Placed(t, j) ==>
      Placed(u, j) && VulnAt(u, j) == VulnAt(t, j) && SinksAt(u, j) == SinksAt(t, j) && FormatsAt(u, j) == FormatsAt(t, j)
  }

  /** chosenFormats and calledSinks for one key; None leaves the map as it is. */
  function Note(t: Fold, key: VulnKey, formats: Option<bool>, sinks: Option<seq<string>>): Fold {
    t.(formats := if formats.Some? then t.formats[key := formats.value] else t.formats,
       sinks := if sinks.Some? then t.sinks[key := sinks.value] else t.sinks)
  }

  function ListAt(t: Fold, mod: string): seq<Vuln> { if mod in t.results then t.results[mod] else [] }

  function Append(t: Fold, key: VulnKey, v: Vuln): Fold {
    t.(seen := t.seen[key := |ListAt(t, key.module_)|], results := t.results[key.module_ := ListAt(t, key.module_) + [v]])
  }

  function Replace(t: Fold, key: VulnKey, v: Vuln): Fold
    requires Placed(t, key)
  {
    t.(results := t.results[key.module_ := t.results[key.module_][t.seen[key] := v]])
  }

  lemma NoteKeeps(t: Fold, key: VulnKey, formats: Option<bool>, sinks: Option<seq<string>>)
    requires OwnPlace(t)
    ensures OwnPlace(Note(t, key, formats, sinks)) && OthersSame(t, Note(t, key, formats, sinks), key)
  {
  }

  lemma AppendKeeps(t: Fold, key: VulnKey, v: Vuln)
    requires OwnPlace(t) && key !in t.seen && v.id == key.osv
    ensures OwnPlace(Append(t, key, v)) && OthersSame(t, Append(t, key, v), key)
    ensures Placed(Append(t, key, v), key) && VulnAt(Append(t, key, v), key) == v
  {
  }

  lemma ReplaceKeeps(t: Fold, key: VulnKey, v: Vuln)
    requires OwnPlace(t) && Placed(t, key) && v.id == key.osv
    ensures OwnPlace(Replace(t, key, v)) && OthersSame(t, Replace(t, key, v), key)
    ensures Placed(Replace(t, key, v), key) && VulnAt(Replace(t, key, v), key) == v
  {
  }

  lemma OthersTwice(t: Fold, u: Fold, w: Fold, key: VulnKey)
    requires OthersSame(t, u, key) && OthersSame(u, w, key)
    ensures OthersSame(t, w, key)
  {
    hide Placed, VulnAt, SinksAt, FormatsAt;
  }

  /** A key's first finding: a new entry at the end of its module's list. */
  method AddFirst(t: Fold, f: GvFinding, key: VulnKey, roots: set<string>) returns (u: Fold)
    requires key !in t.seen && OwnPlace(t)
    ensures OwnPlace(u) && OthersSame(t, u, key) && u.seen.Keys == t.seen.Keys + {key} && Placed(u, key)
    ensures u.sinks.Keys <= t.sinks.Keys + {key}
    ensures VulnAt(u, key) == Vuln(key.osv, ReachOf(f.trace), PathFrom(f, roots).path, PathFrom(f, roots).frames, [])
    ensures SinksAt(u, key) == SinksAt(t, key) + SinkOf(f)
    ensures PathFrom(f, roots).path != [] ==> FormatsAt(u, key) == PathFrom(f, roots).formats
  {
    FirstPath(f, roots);
    hide ReachOf, SinkOf, PreferCalled, Condensed, FormatsMessage, OwnPlace, OthersSame;
    var reach := ClassifyReachability(f.trace);
    var vuln := Vuln(key.osv, reach, [], [], []);
    var formats, sinks := None, None;
    if reach == Called {
      var path, frames := Condense(f.trace, roots);
      vuln := vuln.(path := path, frames := frames);
      var only := TraceFormatsMessage(f.trace);
      var all := AppendCalledSink(SinksAt(t, key), f);
      formats, sinks := Some(only), Some(all);
    }
    NoteKeeps(t, key, formats, sinks);
    var n := Note(t, key, formats, sinks);
    AppendKeeps(n, key, vuln);
    u := Append(n, key, vuln);
    OthersTwice(t, n, u, key);
  }

  /** A further finding of a key: reachability is raised, the path is replaced by a preferred one, the symbol is added. */
  method MergeAgain(t: Fold, f: GvFinding, key: VulnKey, roots: set<string>, ghost best: Candidate) returns (u: Fold)
    requires Placed(t, key) && OwnPlace(t)
    requires VulnAt(t, key).path == best.path && VulnAt(t, key).frames == best.frames
    requires best.path != [] ==> FormatsAt(t, key) == best.formats
    ensures OwnPlace(u) && OthersSame(t, u, key) && u.seen == t.seen && Placed(u, key) && u.sinks.Keys <= t.sinks.Keys + {key}
    ensures var v, r, c := VulnAt(t, key), ReachOf(f.trace), if PreferCalled(PathFrom(f, roots), best) then PathFrom(f, roots) else best;
      && VulnAt(u, key) == Vuln(key.osv, if ReachabilityRank(r) > ReachabilityRank(v.reach) then r else v.reach, c.path, c.frames, v.symbols)
      && (c.path != [] ==> FormatsAt(u, key) == c.formats)
    ensures SinksAt(u, key) == SinksAt(t, key) + SinkOf(f)
  {
    hide ReachOf, SinkOf, PathFrom, PreferCalled, OwnPlace, OthersSame, ReachabilityRank;
    var reach := ClassifyReachability(f.trace);
    var cur := VulnAt(t, key);
    if ReachabilityRank(reach) > ReachabilityRank(cur.reach) {
      cur := cur.(reach := reach);
    }
    var formats, sinks := None, None;
    if reach == Called {
      var path, frames, only := Reconsider(f, roots, Candidate(cur.path, cur.frames, FormatsAt(t, key)), best);
      cur := cur.(path := path, frames := frames);
      var all := AppendCalledSink(SinksAt(t, key), f);
      formats, sinks := only, Some(all);
    } else {
      FirstPath(f, roots);
      NeverPreferred(NO_PATH, best, best);
    }
    NoteKeeps(t, key, formats, sinks);
    var n := Note(t, key, formats, sinks);
    ReplaceKeeps(n, key, cur);
    u := Replace(n, key, cur);
    OthersTwice(t, n, u, key);
  }

  /** The path to keep after a called finding; formats is Some when it is the finding's own. */
  method Reconsider(f: GvFinding, roots: set<string>, cur: Candidate, ghost best: Candidate)
      returns (path: seq<string>, frames: seq<CallFrame>, formats: Option<bool>)
    requires ReachOf(f.trace) == Called
    requires cur.path == best.path && cur.frames == best.frames && (best.path != [] ==> cur.formats == best.formats)
    ensures var c := if PreferCalled(PathFrom(f, roots), best) then PathFrom(f, roots) else best;
      && path == c.path && frames == c.frames
      && (c.path != [] ==> (if formats.Some? then formats.value else cur.formats) == c.formats)
  {
    hide ReachOf, Condensed, FormatsMessage, PreferCalled;
    NeverPreferred(PathFrom(f, roots), best, cur);
    path, frames := Condense(f.trace, roots);
    var only := TraceFormatsMessage(f.trace);
    if PreferCalled(Candidate(path, frames, only), cur) {
      formats := Some(only);
    } else {
      path, frames, formats := cur.path, cur.frames, None;
    }
  }

  /** The kept path's message kind is only read when there is a path; a finding that is not called has none to offer. */
  lemma NeverPreferred(c: Candidate, best: Candidate, cur: Candidate)
    requires cur.path == best.path && cur.frames == best.frames && (best.path != [] ==> cur.formats == best.formats)
    ensures PreferCalled(c, cur) == PreferCalled(c, best) && !PreferCalled(NO_PATH, best)
  {
    hide PreferPath, ComparePositions;
  }

  /** parseGovulncheckJSON's loop over the findings. */
  method FoldFindings(fs: seq<GvFinding>, osvs: set<string>, roots: set<string>) returns (t: Fold)
    ensures FoldOf(t, fs, osvs, roots)
  {
    t := Fold(map[], map[], map[], map[]);
    hide *;
    NothingFolded(osvs, roots);
    for i := 0 to |fs|
      invariant FoldOf(t, fs[..i], osvs, roots)
    {
      t := FoldOne(t, fs[..i], fs[i], osvs, roots);
      assert fs[..i + 1] == fs[..i] + [fs[i]];
    }
    assert fs[..|fs|] == fs;
  }

  lemma NothingFolded(osvs: set<string>, roots: set<string>)
    ensures FoldOf(Fold(map[], map[], map[], map[]), [], osvs, roots)
  {
  }

  /** One turn of the loop. */
  method FoldOne(t: Fold, ghost fs: seq<GvFinding>, f: GvFinding, osvs: set<string>,
                 roots: set<string>) returns (u: Fold)
    requires FoldOf(t, fs, osvs, roots)
    ensures FoldOf(u, fs + [f], osvs, roots)
  {
    hide FoldOf;
    if f.osv !in osvs {
      SkippedStep(t, fs, f, osvs, roots);
      return t;
    }
    var modPath := FindModule(f.trace);
    if modPath == "" {
      SkippedStep(t, fs, f, osvs, roots);
      return t;
    }
    u := FoldInto(t, fs, f, osvs, roots, VulnKey(modPath, f.osv));
  }

  method FoldInto(t: Fold, ghost fs: seq<GvFinding>, f: GvFinding, osvs: set<string>, roots: set<string>,
                  key: VulnKey) returns (u: Fold)
    requires FoldOf(t, fs, osvs, roots) && KeyOf(f, osvs) == Some(key)
    ensures FoldOf(u, fs + [f], osvs, roots)
  {
    hide *;
    ghost var m := Mine(fs, osvs, key);
    StateAt(t, fs, osvs, roots, key);
    if key in t.seen {
      u := MergeAgain(t, f, key, roots, BestPath(m, roots));
      AgainHolds(t, u, key, m, f, roots);
    } else {
      u := AddFirst(t, f, key, roots);
      FirstHolds(t, u, key, f, roots);
      assert m + [f] == [f];
    }
    KeyStep(t, u, fs, f, osvs, roots, key);
  }

  lemma StateAt(t: Fold, fs: seq<GvFinding>, osvs: set<string>, roots: set<string>, k: VulnKey)
    requires FoldOf(t, fs, osvs, roots)
    ensures OwnPlace(t) && t.sinks.Keys <= t.seen.Keys
    ensures var m := Mine(fs, osvs, k); if k !in t.seen then m == [] && SinksAt(t, k) == [] else
      && m != [] && Holds(t, k, m, roots) && Placed(t, k)
      && VulnAt(t, k).path == BestPath(m, roots).path && VulnAt(t, k).frames == BestPath(m, roots).frames
      && (BestPath(m, roots).path != [] ==> FormatsAt(t, k) == BestPath(m, roots).formats)
  {
    hide Mine, BestPath, TopReach, Sinks, OwnPlace, Placed, FormatsAt;
  }

  lemma FirstHolds(t: Fold, u: Fold, k: VulnKey, f: GvFinding, roots: set<string>)
    requires Placed(u, k) && SinksAt(t, k) == [] && SinksAt(u, k) == SinksAt(t, k) + SinkOf(f)
    requires VulnAt(u, k) == Vuln(k.osv, ReachOf(f.trace), PathFrom(f, roots).path, PathFrom(f, roots).frames, [])
    requires PathFrom(f, roots).path != [] ==> FormatsAt(u, k) == PathFrom(f, roots).formats
    ensures Holds(u, k, [f], roots)
  {
    FirstPath(f, roots);
    FoldOneMore([], f, roots);
    assert [] + [f] == [f];
    hide ReachOf, PathFrom, SinkOf, PreferCalled, BestPath, TopReach, Sinks, Placed, VulnAt, SinksAt, FormatsAt;
  }

  lemma AgainHolds(t: Fold, u: Fold, k: VulnKey, m: seq<GvFinding>, f: GvFinding, roots: set<string>)
    requires m != [] && Holds(t, k, m, roots) && Placed(t, k) && Placed(u, k) && SinksAt(u, k) == SinksAt(t, k) + SinkOf(f)
    requires var v, r, best := VulnAt(t, k), ReachOf(f.trace), BestPath(m, roots);
      var c := if PreferCalled(PathFrom(f, roots), best) then PathFrom(f, roots) else best;
      && VulnAt(u, k) == Vuln(k.osv, if ReachabilityRank(r) > ReachabilityRank(v.reach) then r else v.reach, c.path, c.frames, v.symbols)
      && (c.path != [] ==> FormatsAt(u, k) == c.formats)
    ensures Holds(u, k, m + [f], roots)
  {
    FoldOneMore(m, f, roots);
    hide ReachOf, PathFrom, SinkOf, PreferCalled, BestPath, TopReach, Sinks, Placed, VulnAt, SinksAt, FormatsAt, ReachabilityRank;
  }

  // ---- The last loop ----

  /** What parseGovulncheckJSON returns: one entry for each module and advisory that some finding names, and it is the fold
      of that key's findings. */
  ghost predicate Complete(results: map<string, seq<Vuln>>, fs: seq<GvFinding>, osvs: set<string>, roots: set<string>) {
    && (forall mod, j :: mod in results && 0 <= j < |results[mod]| ==>
          var m := Mine(fs, osvs, VulnKey(mod, results[mod][j].id));
          m != [] && results[mod][j] == VulnOf(m, roots, results[mod][j].id))
    && (forall mod, i, j :: mod in results && 0 <= i < j < |results[mod]| ==> results[mod][i].id != results[mod][j].id)
    && forall f :: f in fs && KeyOf(f, osvs).Some? ==>
         var k := KeyOf(f, osvs).value; k.module_ in results && exists j :: 0 <= j < |results[k.module_]| && results[k.module_][j].id == k.osv
  }

  /** The entry with its symbols set. */
  ghost function WithSymbols(t: Fold, mod: string, v: Vuln): Vuln {
    v.(symbols := FirstOnes(Sorted(SetOf(SinksAt(t, VulnKey(mod, v.id))))))
  }

  method FinishModule(t: Fold, mod: string, vulns: seq<Vuln>) returns (out: seq<Vuln>)
    ensures |out| == |vulns| && forall j :: 0 <= j < |vulns| ==> out[j] == WithSymbols(t, mod, vulns[j])
  {
    out := vulns;
    hide SinksAt, Sorted, SetOf, FirstOnes;
    for i := 0 to |vulns|
      invariant |out| == |vulns|
      invariant forall j :: 0 <= j < |vulns| ==> out[j] == if j < i then WithSymbols(t, mod, vulns[j]) else vulns[j]
    {
      var symbols := CapCalledSymbols(SinksAt(t, VulnKey(mod, out[i].id)));
      out := out[i := out[i].(symbols := symbols)];
    }
  }

  method ParseFindings(fs: seq<GvFinding>, osvs: set<string>, roots: set<string>)
    returns (results: map<string, seq<Vuln>>)
    ensures Complete(results, fs, osvs, roots)
  {
    var t := FoldFindings(fs, osvs, roots);
    results := t.results;
    var rest := results.Keys;
    hide *;
    while rest != {}
      invariant rest <= results.Keys == t.results.Keys
      invariant forall mod :: mod in t.results ==> |results[mod]| == |t.results[mod]|
      invariant forall mod, j :: mod in t.results && 0 <= j < |t.results[mod]| ==>
        results[mod][j] == if mod in rest then t.results[mod][j] else WithSymbols(t, mod, t.results[mod][j])
      decreases rest
    {
      var mod :| mod in rest;
      var out := FinishModule(t, mod, results[mod]);
      results := results[mod := out];
      rest := rest - {mod};
    }
    FinishedIsComplete(t, results, fs, osvs, roots);
  }

  lemma FinishedIsComplete(t: Fold, results: map<string, seq<Vuln>>, fs: seq<GvFinding>, osvs: set<string>,
                           roots: set<string>)
    requires FoldOf(t, fs, osvs, roots) && results.Keys == t.results.Keys
    requires forall mod :: mod in t.results ==> |results[mod]| == |t.results[mod]|
    requires forall mod, j :: mod in t.results && 0 <= j < |t.results[mod]| ==> results[mod][j] == WithSymbols(t, mod, t.results[mod][j])
    ensures Complete(results, fs, osvs, roots)
  {
    hide *;
    OwnPlaceMeans(t, fs, osvs, roots);
    forall mod, j | mod in results && 0 <= j < |results[mod]|
      ensures Mine(fs, osvs, VulnKey(mod, results[mod][j].id)) != []
      ensures results[mod][j] == VulnOf(Mine(fs, osvs, VulnKey(mod, results[mod][j].id)), roots, results[mod][j].id)
    {
      var k := VulnKey(mod, t.results[mod][j].id);
      SymbolsKeepId(t, mod, t.results[mod][j]);
      EntryIsFold(t, fs, osvs, roots, k);
    }
    forall mod, i, j | mod in results && 0 <= i < j < |results[mod]| ensures results[mod][i].id != results[mod][j].id {
      SymbolsKeepId(t, mod, t.results[mod][i]);
      SymbolsKeepId(t, mod, t.results[mod][j]);
    }
    forall f | f in fs && KeyOf(f, osvs).Some?
      ensures KeyOf(f, osvs).value.module_ in results
      ensures exists j :: 0 <= j < |results[KeyOf(f, osvs).value.module_]| && results[KeyOf(f, osvs).value.module_][j].id == KeyOf(f, osvs).value.osv
    {
      var k := KeyOf(f, osvs).value;
      assert f in Mine(fs, osvs, k);
      SeenHasPlace(t, fs, osvs, roots, k);
      SymbolsKeepId(t, k.module_, t.results[k.module_][t.seen[k]]);
    }
    CompleteMeans(results, fs, osvs, roots);
  }

  lemma CompleteMeans(results: map<string, seq<Vuln>>, fs: seq<GvFinding>, osvs: set<string>, roots: set<string>)
    requires forall mod, j :: mod in results && 0 <= j < |results[mod]| ==>
          var m := Mine(fs, osvs, VulnKey(mod, results[mod][j].id));
          m != [] && results[mod][j] == VulnOf(m, roots, results[mod][j].id)
    requires forall mod, i, j :: mod in results && 0 <= i < j < |results[mod]| ==> results[mod][i].id != results[mod][j].id
    requires forall f :: f in fs && KeyOf(f, osvs).Some? ==>
         var k := KeyOf(f, osvs).value; k.module_ in results && exists j :: 0 <= j < |results[k.module_]| && results[k.module_][j].id == k.osv
    ensures Complete(results, fs, osvs, roots)
  {
    hide Mine, VulnOf, KeyOf;
  }

  lemma SymbolsKeepId(t: Fold, mod: string, v: Vuln)
    ensures WithSymbols(t, mod, v).id == v.id
  {
    hide FirstOnes, Sorted, SetOf, SinksAt;
  }

  /** In each list an advisory has one place only, and its key is known. */
  lemma OwnPlaceMeans(t: Fold, fs: seq<GvFinding>, osvs: set<string>, roots: set<string>)
    requires FoldOf(t, fs, osvs, roots)
    ensures forall mod, j :: mod in t.results && 0 <= j < |t.results[mod]| ==>
      VulnKey(mod, t.results[mod][j].id) in t.seen && t.seen[VulnKey(mod, t.results[mod][j].id)] == j
  {
    hide Mine, Holds;
  }

  lemma SeenHasPlace(t: Fold, fs: seq<GvFinding>, osvs: set<string>, roots: set<string>, k: VulnKey)
    requires FoldOf(t, fs, osvs, roots) && Mine(fs, osvs, k) != []
    ensures Placed(t, k) && k in t.seen && k.module_ in t.results && t.seen[k] < |t.results[k.module_]|
    ensures t.results[k.module_][t.seen[k]].id == k.osv
  {
    hide Mine, OwnPlace, BestPath, TopReach, Sinks, SinksAt, FormatsAt, VulnAt;
  }

  lemma EntryIsFold(t: Fold, fs: seq<GvFinding>, osvs: set<string>, roots: set<string>, k: VulnKey)
    requires FoldOf(t, fs, osvs, roots) && k in t.seen && k.module_ in t.results && t.seen[k] < |t.results[k.module_]|
    ensures Mine(fs, osvs, k) != []
    ensures WithSymbols(t, k.module_, t.results[k.module_][t.seen[k]]) == VulnOf(Mine(fs, osvs, k), roots, k.osv)
  {
    hide Mine, OwnPlace, BestPath, TopReach, Sinks, SinksAt, FormatsAt, FirstOnes, Sorted, SetOf;
  }

  /** Every entry is of a known advisory that some finding reports in that module: the first module its trace names. */
  lemma EntriesAreReported(results: map<string, seq<Vuln>>, fs: seq<GvFinding>, osvs: set<string>, roots: set<string>, mod: string, j: nat)
    requires Complete(results, fs, osvs, roots) && mod in results && j < |results[mod]|
    ensures results[mod][j].id in osvs && mod != ""
    ensures exists f :: f in fs && f.osv == results[mod][j].id && ModuleOf(f.trace) == mod
  {
    var k := VulnKey(mod, results[mod][j].id);
    var m := Mine(fs, osvs, k);
    assert m != [] && m[0] in m;
    hide VulnOf, Mine, ModuleOf;
    assert KeyOf(m[0], osvs) == Some(k);
  }

  /** And every finding of a known advisory whose trace names a module has its entry there. */
  lemma ReportsHaveEntries(results: map<string, seq<Vuln>>, fs: seq<GvFinding>, osvs: set<string>, roots: set<string>, f: GvFinding)
    requires Complete(results, fs, osvs, roots) && f in fs && f.osv in osvs && exists t :: t in f.trace && t.module_ != ""
    ensures ModuleOf(f.trace) in results && exists j :: 0 <= j < |results[ModuleOf(f.trace)]| && results[ModuleOf(f.trace)][j].id == f.osv
  {
    ModuleIsFirst(f.trace);
    hide VulnOf, Mine, ModuleOf;
    assert KeyOf(f, osvs) == Some(VulnKey(ModuleOf(f.trace), f.osv));
  }

  /** Two vulnerabilities that read the same: source positions included, but not the frames' module versions. */
  ghost predicate ReadTheSame(v: Vuln, w: Vuln) {
    && v.id == w.id && v.reach == w.reach && v.symbols == w.symbols
    && |v.path| == |w.path| && Join(v.path) == Join(w.path)
    && |v.frames| == |w.frames| && forall i :: 0 <= i < |v.frames| ==> v.frames[i].position == w.frames[i].position
  }

  lemma SameMine(fs: seq<GvFinding>, gs: seq<GvFinding>, osvs: set<string>, k: VulnKey)
    requires (forall f :: f in fs <==> f in gs) && Mine(fs, osvs, k) != []
    ensures forall f :: f in Mine(fs, osvs, k) <==> f in Mine(gs, osvs, k)
    ensures Mine(gs, osvs, k) != []
    ensures exists f :: f in gs && KeyOf(f, osvs) == Some(k)
  {
    hide KeyOf;
    assert Mine(fs, osvs, k)[0] in Mine(fs, osvs, k);
  }

  /** The whole result does not depend on the order in which govulncheck emits its findings: every entry of one run has an
      entry of the other that reads the same. */
  lemma ResultsAgree(a: map<string, seq<Vuln>>, b: map<string, seq<Vuln>>, fs: seq<GvFinding>, gs: seq<GvFinding>,
                     osvs: set<string>, roots: set<string>, mod: string, i: nat)
    requires Complete(a, fs, osvs, roots) && Complete(b, gs, osvs, roots) && forall f :: f in fs <==> f in gs
    requires mod in a && i < |a[mod]|
    ensures mod in b && exists j :: (0 <= j < |b[mod]| && ReadTheSame(a[mod][i], b[mod][j])
      && ((forall f :: f in fs ==> PlainTrace(f)) ==> a[mod][i].path == b[mod][j].path))
  {
    hide Mine, KeyOf, VulnOf, Join, PlainTrace;
    var k := VulnKey(mod, a[mod][i].id);
    SameMine(fs, gs, osvs, k);
    var f :| f in gs && KeyOf(f, osvs) == Some(k);
    var j :| 0 <= j < |b[mod]| && b[mod][j].id == k.osv;
    ArrivalOrderNeverMatters(Mine(fs, osvs, k), Mine(gs, osvs, k), roots, k.osv);
    KeyNames(fs, osvs, roots, k);
    KeyNames(gs, osvs, roots, k);
  }

  lemma KeyNames(fs: seq<GvFinding>, osvs: set<string>, roots: set<string>, k: VulnKey)
    requires Mine(fs, osvs, k) != []
    ensures VulnOf(Mine(fs, osvs, k), roots, k.osv).id == k.osv
  {
    hide Mine, BestPath, TopReach, Sinks, FirstOnes, Sorted, SetOf;
  }
}
