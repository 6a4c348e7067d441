/** The grade (pkg/grade/engine.go): gradeOnce, the archived flags that matter, and Grade with its extreme re-runs. */
module Engine {
  import opened GradeTypes
  import opened Ordering
  import opened Scoring
  import opened Dedupe
  import opened Tree
  import opened PendingRule

  // ---- The order of the rows ----

  predicate DecidedByVuln(a: RowResult) { a.vulnScore >= a.upkeepScore && a.vulnScore > 0 }

  predicate PreferVuln(a: RowResult, b: RowResult) {
    if DecidedByVuln(a) != DecidedByVuln(b) then DecidedByVuln(a)
    else if a.estimated != b.estimated then !a.estimated
    else if a.isSelf != b.isSelf then a.isSelf
    else if a.direct != b.direct then a.direct
    else Less(a.module_, b.module_)
  }

  predicate RowBefore(a: RowResult, b: RowResult) {
    if a.score != b.score then a.score > b.score else PreferVuln(a, b)
  }

  function InsertRow(x: RowResult, s: seq<RowResult>): (r: seq<RowResult>)
    ensures multiset(r) == multiset(s) + multiset{x}
    ensures |r| == |s| + 1
  {
    if s == [] then [x]
    else if RowBefore(x, s[0]) then [x] + s
    else
      assert s == [s[0]] + s[1..];
      [s[0]] + InsertRow(x, s[1..])
  }

  /** sort.SliceStable: rows that neither precede each other keep their order. */
  function SortRows(s: seq<RowResult>): (r: seq<RowResult>)
    ensures multiset(r) == multiset(s)
    ensures |r| == |s|
  {
    if s == [] then []
    else
      var n := |s| - 1;
      assert s == s[..n] + [s[n]];
      InsertRow(s[n], SortRows(s[..n]))
  }

  // ---- gradeOnce ----

  ghost function MergedRow(r: Row): Row { r.(findings := Merged(r.findings)) }

  /** A copy of the input whose rows have their advisories merged. */
  ghost function MergedInput(input: Input): Input {
    input.(self := MergedRow(input.self),
           deps := seq(|input.deps|, i requires 0 <= i < |input.deps| => MergedRow(input.deps[i])))
  }

  function GradeRows(rows: seq<Row>): (g: seq<RowResult>)
    ensures |g| == |rows| && forall i :: 0 <= i < |rows| ==> g[i] == GradeRow(rows[i])
  {
    seq(|rows|, i requires 0 <= i < |rows| => GradeRow(rows[i]))
  }

  function RowOrder(input: Input): (r: seq<RowResult>)
    ensures |r| == |input.deps| + 1
  {
    SortRows(GradeRows(RowsOf(input)))
  }

  /** The dependency graded as if its unread archived flag were set. */
  function AsArchived(d: Row): Row { d.(upkeep := d.upkeep.(archivedUnread := false, archived := true)) }

  predicate UnreadMatters(d: Row, letterScore: int) {
    d.upkeep.archivedUnread && BandOf(RowScore(AsArchived(d))).WorseThan(BandOf(letterScore))
  }

  function UnreadNames(deps: seq<Row>, letterScore: int): seq<string> {
    if deps == [] then []
    else
      var before, d := UnreadNames(deps[..|deps| - 1], letterScore), deps[|deps| - 1];
      if UnreadMatters(d, letterScore) then before + [d.module_] else before
  }

  /** The rule that raises the letter above the worst row, if one does. */
  function RaisingRule(input: Input): Option<TreeRow> {
    var t := TreeRuleOf(input);
    if t.Some? && t.value.score > RowOrder(input)[0].score then t else None
  }

  function LetterScore(input: Input): int {
    var t := RaisingRule(input);
    if t.Some? then t.value.score else RowOrder(input)[0].score
  }

  function DecidingOf(input: Input): Option<Deciding> {
    var t, worst := RaisingRule(input), RowOrder(input)[0];
    if t.Some? then Some(DecidingTree(t.value.rule, t.value.score))
    else if worst.score > 0 then Some(DecidingRow(worst.module_, worst.isSelf, worst.score))
    else None
  }

  /** gradeOnce on an input whose advisories are already merged. */
  function GradeMerged(input: Input): Result {
    var score := LetterScore(input);
    var t := RaisingRule(input);
    var treeRows := if t.Some? then [t.value] else [];
    var p := PendingOf(input, score);
    if p.Some? then Result(None, false, 0, None, RowOrder(input), treeRows, p, [])
    else Result(Some(BandOf(score)), false, score, DecidingOf(input), RowOrder(input), treeRows, None,
                SortList(UnreadNames(input.deps, score)))
  }

  ghost function GradeOnceOf(input: Input): Result { GradeMerged(MergedInput(input)) }

  method MergeInput(input: Input) returns (m: Input)
    ensures m == MergedInput(input)
  {
    var selfFindings := MergeAdvisories(input.self.findings);
    var deps: seq<Row> := [];
    for i := 0 to |input.deps|
      invariant |deps| == i && forall k :: 0 <= k < i ==> deps[k] == MergedRow(input.deps[k])
    {
      var findings := MergeAdvisories(input.deps[i].findings);
      deps := deps + [input.deps[i].(findings := findings)];
    }
    m := input.(self := input.self.(findings := selfFindings), deps := deps);
    assert m.deps == MergedInput(input).deps;
  }

  method ArchivedUnreadThatMatters(input: Input, letterScore: int) returns (out: seq<string>)
    ensures out == SortList(UnreadNames(input.deps, letterScore))
  {
    var names: seq<string> := [];
    for i := 0 to |input.deps|
      invariant names == UnreadNames(input.deps[..i], letterScore)
    {
      var d := input.deps[i];
      assert input.deps[..i + 1][..i] == input.deps[..i];
      if d.upkeep.archivedUnread {
        var asArchived := d.(upkeep := d.upkeep.(archivedUnread := false, archived := true));
        var graded := GradeRowImpl(asArchived);
        if BandOf(graded.score).WorseThan(BandOf(letterScore)) {
          names := names + [d.module_];
        }
      }
    }
    assert input.deps[..|input.deps|] == input.deps;
    out := SortList(names);
  }

  method GradeAllRows(merged: Input) returns (rows: seq<RowResult>)
    ensures rows == GradeRows(RowsOf(merged))
  {
    var first := GradeRowImpl(merged.self);
    rows := [first];
    hide GradeRow;
    for i := 0 to |merged.deps|
      invariant |rows| == i + 1 && rows[0] == GradeRow(merged.self)
      invariant forall k :: 0 <= k < i ==> rows[k + 1] == GradeRow(merged.deps[k])
    {
      var rr := GradeRowImpl(merged.deps[i]);
      rows := rows + [rr];
    }
    forall k | 0 <= k < |rows| ensures rows[k] == GradeRow(RowsOf(merged)[k]) {
      if k > 0 { assert rows[(k - 1) + 1] == GradeRow(merged.deps[k - 1]); }
    }
    assert rows == GradeRows(RowsOf(merged));
  }

  /** The letter of the sorted rows and the whole-tree rule, and what withholds it. */
  method GradeSorted(merged: Input, rows: seq<RowResult>) returns (res: Result)
    requires rows == RowOrder(merged)
    ensures res == GradeMerged(merged)
  {
    var worst := rows[0];
    var score := worst.score;
    var treeRows: seq<TreeRow> := [];
    var deciding: Option<Deciding> := None;
    var tr := TreeRule(merged);
    if tr.Some? && tr.value.score > worst.score {
      treeRows := treeRows + [tr.value];
      score := tr.value.score;
      deciding := Some(DecidingTree(tr.value.rule, tr.value.score));
    } else if worst.score > 0 {
      deciding := Some(DecidingRow(worst.module_, worst.isSelf, worst.score));
    }
    res := Result(Some(BandOf(score)), false, score, deciding, rows, treeRows, None, []);
    var p := PendingFor(merged, score);
    if p.Some? {
      res := res.(pending := p, letter := None, deciding := None, score := 0);
    } else {
      var unread := ArchivedUnreadThatMatters(merged, score);
      res := res.(archivedUnread := unread);
    }
  }

  method GradeOnce(input: Input) returns (res: Result)
    ensures res == GradeOnceOf(input)
  {
    var merged := MergeInput(input);
    var rows := GradeAllRows(merged);
    rows := SortRows(rows);
    res := GradeSorted(merged, rows);
  }

  // ---- Grade ----

  function MapFindings(fs: seq<Finding>, g: Finding -> Finding): (out: seq<Finding>)
    ensures |out| == |fs| && forall i :: 0 <= i < |fs| ==> out[i] == g(fs[i])
  {
    seq(|fs|, i requires 0 <= i < |fs| => g(fs[i]))
  }

  function MapRow(r: Row, g: Finding -> Finding): Row { r.(findings := MapFindings(r.findings, g)) }

  function MapInput(input: Input, g: Finding -> Finding): Input {
    input.(self := MapRow(input.self, g),
           deps := seq(|input.deps|, i requires 0 <= i < |input.deps| => MapRow(input.deps[i], g)))
  }

  function RateEstimated(f: Finding, sev: Severity): Finding {
    if f.severity == Unrated then f.(severity := sev) else f
  }

  function RateFailed(f: Finding, sev: Severity): Finding {
    if f.lookupFailed then f.(severity := sev) else f
  }

  function EstimatedAs(sev: Severity): Finding -> Finding { (f: Finding) => RateEstimated(f, sev) }

  function FailedAs(sev: Severity): Finding -> Finding { (f: Finding) => RateFailed(f, sev) }

  function WithEstimatedSeverity(input: Input, sev: Severity): Input { MapInput(input, EstimatedAs(sev)) }

  function WithLookupSeverity(input: Input, sev: Severity): Input { MapInput(input, FailedAs(sev)) }

  predicate HasEstimated(input: Input) {
    exists r :: r in RowsOf(input) && exists f :: f in r.findings && f.severity == Unrated
  }

  predicate HasFailed(input: Input) {
    exists r :: r in RowsOf(input) && exists f :: f in r.findings && f.lookupFailed
  }

  /** A re-run with the letter of the first: a re-run without a letter (Pending) differs. */
  ghost predicate SameLetter(input: Input, letter: Option<Letter>) { GradeOnceOf(input).letter == letter }

  /** A severity whose lookup failed could change the letter. */
  ghost predicate LookupMatters(merged: Input, letter: Option<Letter>) {
    && HasFailed(merged)
    && !(SameLetter(WithLookupSeverity(merged, Low), letter) && SameLetter(WithLookupSeverity(merged, Critical), letter))
  }

  /** A severity nobody published could change the letter. */
  ghost predicate EstimateMatters(merged: Input, letter: Option<Letter>) {
    && HasEstimated(merged)
    && !(SameLetter(WithEstimatedSeverity(merged, Low), letter) && SameLetter(WithEstimatedSeverity(merged, Critical), letter))
  }

  ghost function GradeOf(input: Input): Result {
    var merged := MergedInput(input);
    var res := GradeOnceOf(merged);
    if res.pending.Some? then res
    else if LookupMatters(merged, res.letter) then
      res.(pending := Some(SeverityLookup), letter := None, deciding := None, score := 0, estimated := false)
    else if EstimateMatters(merged, res.letter) then res.(estimated := true)
    else res
  }

  /** Some finding of the rows satisfies the flag: the loops of hasEstimatedSeverity and severityLookupPending. */
  method AnyFinding(rows: seq<Row>, flag: Finding -> bool) returns (found: bool)
    ensures found == exists r :: r in rows && exists f :: f in r.findings && flag(f)
  {
    found := false;
    for i := 0 to |rows|
      invariant !found
      invariant forall k, f :: 0 <= k < i && f in rows[k].findings ==> !flag(f)
    {
      for j := 0 to |rows[i].findings|
        invariant forall f :: f in rows[i].findings[..j] ==> !flag(f)
      {
        if flag(rows[i].findings[j]) {
          assert rows[i] in rows;
          return true;
        }
      }
    }
  }

  /** The two re-runs: LOW first, then CRITICAL when LOW kept the letter. */
  method SeverityLookupPending(merged: Input, letter: Option<Letter>) returns (pending: bool)
    ensures pending == LookupMatters(merged, letter)
  {
    var any := AnyFinding(RowsOf(merged), (f: Finding) => f.lookupFailed);
    assert any == HasFailed(merged);
    hide GradeOnceOf, HasFailed, WithLookupSeverity;
    if !any {
      return false;
    }
    var low := GradeOnce(WithLookupSeverity(merged, Low));
    if low.letter != letter {
      return true;
    }
    var critical := GradeOnce(WithLookupSeverity(merged, Critical));
    return critical.letter != letter;
  }

  method EstimatePending(merged: Input, letter: Option<Letter>) returns (estimated: bool)
    ensures estimated == EstimateMatters(merged, letter)
  {
    var any := AnyFinding(RowsOf(merged), (f: Finding) => f.severity == Unrated);
    assert any == HasEstimated(merged);
    hide GradeOnceOf, HasEstimated, WithEstimatedSeverity;
    if !any {
      return false;
    }
    var low := GradeOnce(WithEstimatedSeverity(merged, Low));
    if low.letter != letter {
      return true;
    }
    var critical := GradeOnce(WithEstimatedSeverity(merged, Critical));
    return critical.letter != letter;
  }

  method Grade(input: Input) returns (res: Result)
    ensures res == GradeOf(input)
  {
    var merged := MergeInput(input);
    res := GradeOnce(merged);
    if res.pending.Some? {
      return;
    }
    var lookup := SeverityLookupPending(merged, res.letter);
    if lookup {
      res := res.(pending := Some(SeverityLookup), letter := None, deciding := None, score := 0, estimated := false);
      return;
    }
    var estimated := EstimatePending(merged, res.letter);
    if estimated {
      res := res.(estimated := true);
    }
  }
}
