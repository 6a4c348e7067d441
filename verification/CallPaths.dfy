/** Call paths (pkg/scanner/vuln.go): condensing a trace, and which of two called findings' paths is kept. */
module CallPaths {
  import opened GradeTypes
  import opened Ordering

  const MAX_CALL_PATH_FRAMES := 8
  const ELISION := "..."

  datatype Position = Position(file: string, line: int, column: int)

  /** One frame of a trace; the first is the innermost. An empty string stands for an absent name. */
  datatype TraceEntry = TraceEntry(module_: string, version: string, pkg: string, func_: string, receiver: string, position: Option<Position>)

  datatype CallFrame = CallFrame(name: string, module_: string, version: string, position: Position, project: bool, elided: bool)

  const NO_POSITION := Position("", 0, 0)
  const ELIDED := CallFrame("", "", "", NO_POSITION, false, true)

  /** strings.Cut(s, "$"): what stands before the first dollar sign. */
  function BeforeDollar(s: string): string {
    if s == "" || s[0] == '$' then "" else [s[0]] + BeforeDollar(s[1..])
  }

  function TrimStar(s: string): string { if s != "" && s[0] == '*' then s[1..] else s }

  function FrameName(t: TraceEntry): string {
    var name := BeforeDollar(t.func_);
    var method_ := if t.receiver != "" then TrimStar(t.receiver) + "." + name else name;
    if t.pkg != "" then t.pkg + "." + method_ else method_
  }

  function NewCallFrame(t: TraceEntry, roots: set<string>): CallFrame {
    CallFrame(FrameName(t), t.module_, t.version, if t.position.Some? then t.position.value else NO_POSITION, t.pkg in roots, false)
  }

  function ReachOf(trace: seq<TraceEntry>): Reach {
    if trace == [] then Required
    else if exists t :: t in trace && t.position.Some? then Called
    else if trace[0].func_ != "" then Called
    else if trace[0].pkg != "" then Imported
    else Required
  }

  predicate PassesMessage(t: TraceEntry) {
    t.pkg == "fmt" || t.pkg == "log"
    || (t.receiver != "" && (BeforeDollar(t.func_) == "Error" || BeforeDollar(t.func_) == "String"))
  }

  predicate FormatsMessage(trace: seq<TraceEntry>) { exists t :: t in trace && PassesMessage(t) }

  method ClassifyReachability(trace: seq<TraceEntry>) returns (r: Reach)
    ensures r == ReachOf(trace)
  {
    if |trace| == 0 {
      return Required;
    }
    for i := 0 to |trace|
      invariant forall k :: 0 <= k < i ==> trace[k].position.None?
    {
      if trace[i].position.Some? {
        return Called;
      }
    }
    if trace[0].func_ != "" {
      return Called;
    }
    if trace[0].pkg != "" {
      return Imported;
    }
    return Required;
  }

  method TraceFormatsMessage(trace: seq<TraceEntry>) returns (r: bool)
    ensures r == FormatsMessage(trace)
  {
    for i := 0 to |trace|
      invariant forall k :: 0 <= k < i ==> !PassesMessage(trace[k])
    {
      if PassesMessage(trace[i]) {
        return true;
      }
    }
    return false;
  }

  // ---- condense ----

  /** The frames with a function name, outermost first. */
  function FuncFrames(trace: seq<TraceEntry>): (fr: seq<TraceEntry>)
    ensures forall t :: t in fr <==> t in trace && t.func_ != ""
  {
    if trace == [] then []
    else
      assert trace == [trace[0]] + trace[1..];
      FuncFrames(trace[1..]) + (if trace[0].func_ != "" then [trace[0]] else [])
  }

  /** The entry frame, the last frame of a run of one package, and the vulnerable function itself. */
  predicate HandsOver(fr: seq<TraceEntry>, i: nat)
    requires i < |fr|
  {
    i == 0 || i == |fr| - 1 || fr[i + 1].pkg != fr[i].pkg
  }

  function KeptUpTo(fr: seq<TraceEntry>, roots: set<string>, n: nat): (k: seq<CallFrame>)
    requires n <= |fr|
    ensures |k| <= n
  {
    if n == 0 then []
    else KeptUpTo(fr, roots, n - 1) + (if HandsOver(fr, n - 1) then [NewCallFrame(fr[n - 1], roots)] else [])
  }

  function CutMiddle(frames: seq<CallFrame>): seq<CallFrame> {
    if |frames| > MAX_CALL_PATH_FRAMES then [frames[0], ELIDED] + frames[|frames| - (MAX_CALL_PATH_FRAMES - 2)..] else frames
  }

  function Condensed(trace: seq<TraceEntry>, roots: set<string>): seq<CallFrame> {
    CutMiddle(KeptUpTo(FuncFrames(trace), roots, |FuncFrames(trace)|))
  }

  function PathEntry(f: CallFrame): string { if f.elided then ELISION else f.name }

  /** The path of the frames: their names, with the cut marked. */
  function PathOf(frames: seq<CallFrame>): (p: seq<string>)
    ensures |p| == |frames|
  {
    seq(|frames|, i requires 0 <= i < |frames| => PathEntry(frames[i]))
  }

  lemma {:induction false} KeptOnes(fr: seq<TraceEntry>, roots: set<string>, n: nat)
    requires n <= |fr|
    ensures forall f :: f in KeptUpTo(fr, roots, n) ==> !f.elided && exists i :: 0 <= i < n && f == NewCallFrame(fr[i], roots)
    ensures n > 0 ==> |KeptUpTo(fr, roots, n)| > 0 && KeptUpTo(fr, roots, n)[0] == NewCallFrame(fr[0], roots)
  {
    if n > 0 {
      KeptOnes(fr, roots, n - 1);
    }
  }

  lemma CutShape(k: seq<CallFrame>)
    ensures var c := CutMiddle(k);
      && |c| <= MAX_CALL_PATH_FRAMES && (c == [] <==> k == [])
      && (c != [] ==> c[0] == k[0] && c[|c| - 1] == k[|k| - 1])
      && forall f :: f in c ==> f == ELIDED || f in k
  {
  }

  lemma {:induction false} LastKept(fr: seq<TraceEntry>, roots: set<string>)
    requires fr != []
    ensures var k := KeptUpTo(fr, roots, |fr|); k != [] && k[|k| - 1] == NewCallFrame(fr[|fr| - 1], roots)
  {
    hide NewCallFrame;
  }

  /** What a condensed trace shows: at most 8 entries, none only when no frame names a function, the entry point first, the
      vulnerable function last, and nothing that the trace does not hold. */
  lemma {:induction false} CondensedShape(trace: seq<TraceEntry>, roots: set<string>)
    ensures var c, fr := Condensed(trace, roots), FuncFrames(trace);
      && |c| <= MAX_CALL_PATH_FRAMES
      && (c == [] <==> forall t :: t in trace ==> t.func_ == "")
      && (c != [] ==> fr != [] && c[0] == NewCallFrame(fr[0], roots) && c[|c| - 1] == NewCallFrame(fr[|fr| - 1], roots))
      && forall f :: f in c ==> f == ELIDED || exists t :: t in trace && t.func_ != "" && f == NewCallFrame(t, roots)
  {
    hide NewCallFrame, FuncFrames, KeptUpTo, CutMiddle;
    var fr := FuncFrames(trace);
    var k := KeptUpTo(fr, roots, |fr|);
    KeptOnes(fr, roots, |fr|);
    if fr != [] { LastKept(fr, roots); }
    CutShape(k);
    assert fr != [] ==> fr[0] in fr;
    forall f | f in CutMiddle(k) && f != ELIDED ensures exists t :: t in trace && t.func_ != "" && f == NewCallFrame(t, roots) {
      var i :| 0 <= i < |fr| && f == NewCallFrame(fr[i], roots);
      assert fr[i] in fr;
    }
  }

  // ---- What a name and a path show, exactly ----

  /** What stands before the first dollar sign, or all of it. */
  lemma {:induction false} BeforeDollarIs(s: string)
    ensures var r := BeforeDollar(s); r <= s && '$' !in r && (r == s || s[|r|] == '$')
  {
    if s != "" && s[0] != '$' {
      BeforeDollarIs(s[1..]);
      assert s == [s[0]] + s[1..];
    }
  }

  lemma FrameNameIs(t: TraceEntry)
    ensures t.pkg == "" && t.receiver == "" ==> FrameName(t) == BeforeDollar(t.func_)
    ensures t.pkg != "" && t.receiver == "" ==> FrameName(t) == t.pkg + "." + BeforeDollar(t.func_)
    ensures t.pkg != "" && t.receiver != "" && t.receiver[0] == '*' ==>
      FrameName(t) == t.pkg + "." + t.receiver[1..] + "." + BeforeDollar(t.func_)
    ensures t.pkg != "" && t.receiver != "" && t.receiver[0] != '*' ==>
      FrameName(t) == t.pkg + "." + t.receiver + "." + BeforeDollar(t.func_)
  {
    hide BeforeDollar;
  }

  /** A frame shows its trace entry: module, version and position, and whether its package is the project's own. */
  lemma FrameShows(t: TraceEntry, roots: set<string>)
    ensures var f := NewCallFrame(t, roots);
      && f.module_ == t.module_ && f.version == t.version && (f.project <==> t.pkg in roots) && !f.elided
      && (if t.position.Some? then f.position == t.position.value else f.position == Position("", 0, 0))
  {
    hide FrameName;
  }

  /** The entry point is the trace's last frame with a function name. */
  lemma {:induction false} EntryIsLast(trace: seq<TraceEntry>)
    ensures FuncFrames(trace) != [] ==>
      exists i :: 0 <= i < |trace| && FuncFrames(trace)[0] == trace[i] && forall j :: i < j < |trace| ==> trace[j].func_ == ""
  {
    if trace != [] {
      var rest := trace[1..];
      EntryIsLast(rest);
      if FuncFrames(rest) != [] {
        var i :| 0 <= i < |rest| && FuncFrames(rest)[0] == rest[i] && forall j :: i < j < |rest| ==> rest[j].func_ == "";
        assert FuncFrames(trace)[0] == trace[i + 1];
        forall j | i + 1 < j < |trace| ensures trace[j].func_ == "" { assert rest[j - 1] == trace[j]; }
      } else if trace[0].func_ != "" {
        assert FuncFrames(trace)[0] == trace[0];
        forall j | 0 < j < |trace| ensures trace[j].func_ == "" { assert rest[j - 1] == trace[j] && trace[j] in rest; }
      }
    }
  }

  /** The sink is the trace's first frame with a function name. */
  lemma {:induction false} SinkIsFirst(trace: seq<TraceEntry>)
    ensures var fr := FuncFrames(trace);
      fr != [] ==> exists i :: 0 <= i < |trace| && fr[|fr| - 1] == trace[i] && forall j :: 0 <= j < i ==> trace[j].func_ == ""
  {
    if trace != [] {
      var rest, fr := trace[1..], FuncFrames(trace);
      SinkIsFirst(rest);
      if trace[0].func_ != "" {
        assert fr[|fr| - 1] == trace[0];
      } else if FuncFrames(rest) != [] {
        assert fr == FuncFrames(rest);
        var k :| 0 <= k < |rest| && fr[|fr| - 1] == rest[k] && forall j :: 0 <= j < k ==> rest[j].func_ == "";
        assert fr[|fr| - 1] == trace[k + 1];
        forall j | 0 <= j < k + 1 ensures trace[j].func_ == "" { if j > 0 { assert rest[j - 1] == trace[j]; } }
      }
    }
  }

  /** The places that are kept: the first, the last, and each one that hands over to another package. */
  ghost function KeptAt(fr: seq<TraceEntry>, n: nat): (at: seq<nat>)
    requires n <= |fr|
    ensures forall j :: 0 <= j < |at| ==> at[j] < n
    ensures forall i, j :: 0 <= i < j < |at| ==> at[i] < at[j]
    ensures forall i :: i in at <==> 0 <= i < n && Shown(fr, i)
  {
    if n == 0 then [] else if Shown(fr, n - 1) then KeptAt(fr, n - 1) + [n - 1] else KeptAt(fr, n - 1)
  }

  predicate Shown(fr: seq<TraceEntry>, i: nat)
    requires i < |fr|
  {
    i == 0 || i == |fr| - 1 || fr[i].pkg != fr[i + 1].pkg
  }

  /** Of the function frames exactly those are kept, in their order. */
  lemma {:induction false} KeptExactly(fr: seq<TraceEntry>, roots: set<string>, n: nat)
    requires n <= |fr|
    ensures |KeptAt(fr, n)| == |KeptUpTo(fr, roots, n)|
    ensures forall j :: 0 <= j < |KeptAt(fr, n)| ==> KeptUpTo(fr, roots, n)[j] == NewCallFrame(fr[KeptAt(fr, n)[j]], roots)
  {
    hide NewCallFrame;
    if n > 0 {
      KeptExactly(fr, roots, n - 1);
      var at := KeptAt(fr, n);
      forall j | 0 <= j < |at| ensures KeptUpTo(fr, roots, n)[j] == NewCallFrame(fr[at[j]], roots) {
        if j < |KeptAt(fr, n - 1)| { assert at[j] == KeptAt(fr, n - 1)[j]; }
      }
    }
  }

  /** Up to eight frames are all shown; of more, the first, a marker and the last six. */
  lemma CutExactly(k: seq<CallFrame>)
    ensures |k| <= 8 ==> CutMiddle(k) == k
    ensures |k| > 8 ==> |CutMiddle(k)| == 8 && CutMiddle(k)[0] == k[0] && CutMiddle(k)[1].elided && CutMiddle(k)[2..] == k[|k| - 6..]
  {
  }

  /** The first loop of condense, from the outermost frame. */
  method CollectFuncFrames(trace: seq<TraceEntry>) returns (fr: seq<TraceEntry>)
    ensures fr == FuncFrames(trace)
  {
    fr := [];
    var i := |trace|;
    while i > 0
      invariant 0 <= i <= |trace| && fr == FuncFrames(trace[i..])
    {
      i := i - 1;
      assert trace[i..][1..] == trace[i + 1..];
      if trace[i].func_ != "" {
        fr := fr + [trace[i]];
      }
    }
    assert trace[0..] == trace;
  }

  lemma OneMorePathEntry(frames: seq<CallFrame>, f: CallFrame)
    ensures PathOf(frames + [f]) == PathOf(frames) + [PathEntry(f)]
  {
  }

  lemma CutPath(frames: seq<CallFrame>)
    requires |frames| > MAX_CALL_PATH_FRAMES
    ensures PathOf([frames[0], ELIDED] + frames[|frames| - 6..]) == [PathOf(frames)[0], ELISION] + PathOf(frames)[|frames| - 6..]
  {
  }

  /** condense: both lists come from one walk. */
  method Condense(trace: seq<TraceEntry>, roots: set<string>) returns (path: seq<string>, frames: seq<CallFrame>)
    ensures frames == Condensed(trace, roots) && path == PathOf(frames)
  {
    var fr := CollectFuncFrames(trace);
    hide FuncFrames, NewCallFrame, PathOf;
    path, frames := [], [];
    for j := 0 to |fr|
      invariant frames == KeptUpTo(fr, roots, j) && path == PathOf(frames)
    {
      var last := j == |fr| - 1;
      if j == 0 || last || fr[j + 1].pkg != fr[j].pkg {
        var frame := NewCallFrame(fr[j], roots);
        NotElided(fr[j], roots);
        OneMorePathEntry(frames, frame);
        path := path + [frame.name];
        frames := frames + [frame];
      }
    }
    if |path| > MAX_CALL_PATH_FRAMES {
      var keep := MAX_CALL_PATH_FRAMES - 2;
      CutPath(frames);
      path := [path[0], ELISION] + path[|path| - keep..];
      frames := [frames[0], ELIDED] + frames[|frames| - keep..];
    }
  }

  lemma NotElided(t: TraceEntry, roots: set<string>)
    ensures !NewCallFrame(t, roots).elided
  {
  }

  // ---- Which path is kept ----

  /** strings.Join(path, "\x00"). */
  function Join(path: seq<string>): string {
    if path == [] then "" else if |path| == 1 then path[0] else path[0] + ['\0'] + Join(path[1..])
  }

  predicate PreferPath(candidate: seq<string>, current: seq<string>) {
    if candidate == [] then false
    else if current == [] then true
    else if |candidate| != |current| then |candidate| < |current|
    else Less(Join(candidate), Join(current))
  }

  /** cmp.Compare on strings and on numbers. */
  function CompareText(a: string, b: string): int { if Less(a, b) then -1 else if a == b then 0 else 1 }

  function CompareInt(a: int, b: int): int { if a < b then -1 else if a == b then 0 else 1 }

  function ComparePosition(a: Position, b: Position): int {
    var c, d := CompareText(a.file, b.file), CompareInt(a.line, b.line);
    if c != 0 then c else if d != 0 then d else CompareInt(a.column, b.column)
  }

  /** Frame by frame, then the shorter list first. */
  function ComparePositions(a: seq<CallFrame>, b: seq<CallFrame>): int {
    if a == [] || b == [] then CompareInt(|a|, |b|)
    else if ComparePosition(a[0].position, b[0].position) != 0 then ComparePosition(a[0].position, b[0].position)
    else ComparePositions(a[1..], b[1..])
  }

  method CompareFramePositions(a: seq<CallFrame>, b: seq<CallFrame>) returns (c: int)
    ensures c == ComparePositions(a, b)
  {
    var i := 0;
    while i < |a| && i < |b|
      invariant i <= |a| && i <= |b| && ComparePositions(a, b) == ComparePositions(a[i..], b[i..])
    {
      assert a[i..][1..] == a[i + 1..] && b[i..][1..] == b[i + 1..];
      c := CompareText(a[i].position.file, b[i].position.file);
      if c != 0 {
        return;
      }
      c := CompareInt(a[i].position.line, b[i].position.line);
      if c != 0 {
        return;
      }
      c := CompareInt(a[i].position.column, b[i].position.column);
      if c != 0 {
        return;
      }
      i := i + 1;
    }
    return CompareInt(|a|, |b|);
  }

  /** A called finding's path, its frames, and whether its trace only formats a message. */
  datatype Candidate = Candidate(path: seq<string>, frames: seq<CallFrame>, formats: bool)

  const NO_PATH := Candidate([], [], false)

  function CandidateOf(trace: seq<TraceEntry>, roots: set<string>): Candidate {
    Candidate(PathOf(Condensed(trace, roots)), Condensed(trace, roots), FormatsMessage(trace))
  }

  predicate PreferCandidate(a: Candidate, b: Candidate) {
    PreferPath(a.path, b.path) || (!PreferPath(b.path, a.path) && ComparePositions(a.frames, b.frames) < 0)
  }

  predicate PreferCalled(a: Candidate, b: Candidate) {
    if a.path == [] then false
    else if b.path == [] then true
    else if a.formats != b.formats then !a.formats
    else PreferCandidate(a, b)
  }

  /** Neither replaces the other. */
  predicate Tied(a: Candidate, b: Candidate) { !PreferCalled(a, b) && !PreferCalled(b, a) }

  /** Among paths of one kind the shorter is preferred, then the one that joins to the smaller string. */
  lemma PreferredIsShorter(a: Candidate, b: Candidate)
    requires a.path != [] && b.path != []
    ensures a.formats != b.formats ==> (PreferCalled(a, b) <==> b.formats)
    ensures a.formats == b.formats && |a.path| != |b.path| ==> (PreferCalled(a, b) <==> |a.path| < |b.path|)
    ensures a.formats == b.formats && |a.path| == |b.path| && Join(a.path) != Join(b.path) ==>
      (PreferCalled(a, b) <==> Less(Join(a.path), Join(b.path)))
  {
    LessTotal(Join(a.path), Join(b.path));
    if Less(Join(a.path), Join(b.path)) { LessAsymmetric(Join(a.path), Join(b.path)); }
    hide Join, Less, ComparePositions;
  }

  /** Positions are compared by file, then line, then column. */
  lemma PositionIs(a: Position, b: Position)
    ensures ComparePosition(a, b) < 0 <==>
      Less(a.file, b.file) || (a.file == b.file && (a.line < b.line || (a.line == b.line && a.column < b.column)))
    ensures ComparePosition(a, b) == 0 <==> a == b
  {
    LessIrreflexive(a.file);
    hide Less;
  }

  /** The first frame whose position differs decides; where none does the shorter list comes first. */
  lemma {:induction false} PositionsAre(a: seq<CallFrame>, b: seq<CallFrame>)
    ensures ComparePositions(a, b) < 0 <==> SmallerFrom(a, b)
  {
    if a != [] && b != [] {
      PositionIs(a[0].position, b[0].position);
      hide ComparePosition;
      PositionsAre(a[1..], b[1..]);
    }
  }

  predicate SmallerFrom(a: seq<CallFrame>, b: seq<CallFrame>) {
    if b == [] then false
    else if a == [] then true
    else
      var p, q := a[0].position, b[0].position;
      || Less(p.file, q.file)
      || (p.file == q.file && (p.line < q.line || (p.line == q.line && p.column < q.column)))
      || (p == q && SmallerFrom(a[1..], b[1..]))
  }

  /** Candidates of one kind with one path are told apart by their positions. */
  lemma PreferredIsEarlier(a: Candidate, b: Candidate)
    requires a.path != [] && a.path == b.path && a.formats == b.formats
    ensures PreferCalled(a, b) <==> SmallerFrom(a.frames, b.frames)
  {
    LessIrreflexive(Join(a.path));
    PositionsAre(a.frames, b.frames);
    hide Join, Less, ComparePositions, SmallerFrom;
  }

  // ---- preferCalled is a strict weak order ----

  lemma TextOrder(a: string, b: string, c: string)
    ensures CompareText(a, b) == -CompareText(b, a) && (CompareText(a, b) == 0 <==> a == b)
    ensures CompareText(a, b) <= 0 && CompareText(b, c) <= 0 ==> CompareText(a, c) <= 0
  {
    LessTotal(a, b);
    LessIrreflexive(a);
    if Less(a, b) { LessAsymmetric(a, b); }
    if Less(b, a) { LessAsymmetric(b, a); }
    if Less(a, b) && Less(b, c) { LessTransitive(a, b, c); }
  }

  lemma PositionOrder(a: Position, b: Position, c: Position)
    ensures ComparePosition(a, b) == -ComparePosition(b, a) && (ComparePosition(a, b) == 0 <==> a == b)
    ensures ComparePosition(a, b) <= 0 && ComparePosition(b, c) <= 0 ==> ComparePosition(a, c) <= 0
  {
    TextOrder(a.file, b.file, c.file);
    TextOrder(b.file, c.file, a.file);
    TextOrder(a.file, c.file, b.file);
    TextOrder(c.file, b.file, a.file);
  }

  lemma {:induction false} PositionsOrder(a: seq<CallFrame>, b: seq<CallFrame>, c: seq<CallFrame>)
    ensures ComparePositions(a, b) == -ComparePositions(b, a)
    ensures ComparePositions(a, b) <= 0 && ComparePositions(b, c) <= 0 ==> ComparePositions(a, c) <= 0
    decreases |a| + |b| + |c|
  {
    hide ComparePosition;
    if a != [] && b != [] {
      PositionOrder(a[0].position, b[0].position, b[0].position);
      PositionOrder(b[0].position, a[0].position, b[0].position);
      if c != [] {
        PositionOrder(a[0].position, b[0].position, c[0].position);
        PositionOrder(b[0].position, c[0].position, a[0].position);
        PositionOrder(a[0].position, c[0].position, b[0].position);
        PositionOrder(c[0].position, a[0].position, b[0].position);
        PositionsOrder(a[1..], b[1..], c[1..]);
      } else {
        PositionsOrder(a[1..], b[1..], []);
      }
    }
  }

  /** Equal positions, frame by frame. */
  lemma {:induction false} EqualPositions(a: seq<CallFrame>, b: seq<CallFrame>)
    ensures ComparePositions(a, b) == 0 <==> |a| == |b| && forall i :: 0 <= i < |a| ==> a[i].position == b[i].position
  {
    hide ComparePosition;
    if a != [] && b != [] {
      PositionOrder(a[0].position, b[0].position, b[0].position);
      EqualPositions(a[1..], b[1..]);
      assert (forall i :: 0 <= i < |a| && |a| == |b| ==> a[i].position == b[i].position) ==>
        forall i :: 0 <= i < |a[1..]| && |a| == |b| ==> a[1..][i].position == b[1..][i].position by {
        assert forall i :: 0 <= i < |a[1..]| && |a| == |b| ==> a[1..][i] == a[i + 1] && b[1..][i] == b[i + 1];
      }
      if |a| == |b| && forall i :: 0 <= i < |a[1..]| ==> a[1..][i].position == b[1..][i].position {
        forall i | 0 < i < |a| ensures a[i].position == b[i].position {
          assert a[1..][i - 1].position == b[1..][i - 1].position;
        }
      }
    }
  }

  lemma PathOrder(a: seq<string>, b: seq<string>, c: seq<string>)
    ensures !(PreferPath(a, b) && PreferPath(b, a))
    ensures !PreferPath(a, b) && !PreferPath(b, c) ==> !PreferPath(a, c)
  {
    hide Join, Less;
    TextOrder(Join(a), Join(b), Join(c));
    TextOrder(Join(c), Join(b), Join(a));
    TextOrder(Join(a), Join(c), Join(c));
  }

  /** A strict weak order: asymmetric, and not being preferred is transitive. */
  lemma PreferCalledIsAnOrder(a: Candidate, b: Candidate, c: Candidate)
    ensures !(PreferCalled(a, b) && PreferCalled(b, a))
    ensures !PreferCalled(a, b) && !PreferCalled(b, c) ==> !PreferCalled(a, c)
  {
    hide PreferPath, ComparePositions;
    PathOrder(a.path, b.path, c.path);
    PathOrder(c.path, b.path, a.path);
    PathOrder(b.path, c.path, a.path);
    PathOrder(b.path, a.path, c.path);
    PathOrder(a.path, c.path, b.path);
    PathOrder(c.path, a.path, b.path);
    PositionsOrder(a.frames, b.frames, c.frames);
    PositionsOrder(c.frames, b.frames, a.frames);
    PositionsOrder(a.frames, c.frames, c.frames);
  }

  /** Candidates that tie show the same path, joined as the tiebreak joins it, at the same positions. */
  lemma TiedShowTheSame(a: Candidate, b: Candidate)
    requires Tied(a, b) && |a.path| == |a.frames| && |b.path| == |b.frames|
    ensures |a.path| == |b.path| && Join(a.path) == Join(b.path)
    ensures forall i :: 0 <= i < |a.frames| ==> a.frames[i].position == b.frames[i].position
    ensures a.path != [] ==> a.formats == b.formats
  {
    hide Join, Less;
    TextOrder(Join(a.path), Join(b.path), Join(b.path));
    hide ComparePositions;
    PositionsOrder(a.frames, b.frames, b.frames);
    EqualPositions(a.frames, b.frames);
  }

  // ---- The tiebreak reads the path itself, unless a name holds the separator ----

  predicate Plain(t: TraceEntry) { '\0' !in t.pkg && '\0' !in t.func_ && '\0' !in t.receiver }

  ghost predicate PlainPath(p: seq<string>) { forall s :: s in p ==> '\0' !in s }

  lemma FirstSeparator(s: string, u: string, t: string, v: string)
    requires '\0' !in s && '\0' !in t && s + ['\0'] + u == t + ['\0'] + v
    ensures s == t && u == v
  {
    var j := s + ['\0'] + u;
    assert j == t + ['\0'] + v;
    assert forall i :: 0 <= i < |s| ==> j[i] == s[i] && s[i] in s;
    assert forall i :: 0 <= i < |t| ==> j[i] == t[i] && t[i] in t;
    assert j[|s|] == '\0' && j[|t|] == '\0';
    assert s == j[..|s|] && t == j[..|t|] && u == j[|s| + 1..] && v == j[|t| + 1..];
  }

  /** Paths of one length that join to the same string are the same path when no entry holds the separator. */
  lemma {:induction false} JoinInjective(a: seq<string>, b: seq<string>)
    requires |a| == |b| && PlainPath(a) && PlainPath(b) && Join(a) == Join(b)
    ensures a == b
  {
    if |a| > 1 {
      FirstSeparator(a[0], Join(a[1..]), b[0], Join(b[1..]));
      JoinInjective(a[1..], b[1..]);
      assert a == [a[0]] + a[1..] && b == [b[0]] + b[1..];
    }
  }

  lemma {:induction false} BeforeDollarHas(s: string)
    ensures forall c :: c in BeforeDollar(s) ==> c in s
  {
    if s != "" { BeforeDollarHas(s[1..]); }
  }

  lemma PlainName(t: TraceEntry)
    requires Plain(t)
    ensures '\0' !in FrameName(t)
  {
    BeforeDollarHas(t.func_);
    hide BeforeDollar;
  }

  lemma PlainCondensed(trace: seq<TraceEntry>, roots: set<string>)
    requires forall t :: t in trace ==> Plain(t)
    ensures PlainPath(PathOf(Condensed(trace, roots)))
  {
    hide Condensed, FrameName, FuncFrames, Plain;
    CondensedShape(trace, roots);
    var c := Condensed(trace, roots);
    forall s | s in PathOf(c) ensures '\0' !in s {
      var i :| 0 <= i < |c| && s == PathEntry(c[i]);
      assert c[i] in c;
      if c[i] != ELIDED {
        var t :| t in trace && t.func_ != "" && c[i] == NewCallFrame(t, roots);
        PlainName(t);
      }
    }
  }
}
