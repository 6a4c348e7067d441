/** The whole-tree rules (pkg/grade/tree.go). */
module Tree {
  import opened GradeTypes
  import opened Ordering
  import opened Scoring

  const TREE_F_SCORE := 76
  const TREE_D_SCORE := 51
  const TREE_CALLED_FINDINGS := 3
  const TREE_IMPORTED_OR_CALLED := 5

  /** A finding counts once per module and advisory. */
  datatype Key = Key(module_: string, id: string)

  predicate CountsCalled(r: Row, f: Finding) {
    r.testOnly != Yes && ScoreFinding(f, r).tier == TierCalled && HighOrCritical(SeverityOf(f.severity))
  }

  predicate CountsReached(r: Row, f: Finding) {
    r.testOnly != Yes && ScoreFinding(f, r).tier != TierGraphOnly && HighOrCritical(SeverityOf(f.severity))
  }

  predicate CountsCritical(r: Row, f: Finding) {
    r.testOnly != Yes && ScoreFinding(f, r).tier == TierCalled && f.severity == Critical
  }

  predicate CountsExploited(r: Row, f: Finding) {
    r.testOnly != Yes && ScoreFinding(f, r).tier == TierCalled && f.exploited
  }

  function CalledKeys(rows: seq<Row>): set<Key> {
    set r, f | r in rows && f in r.findings && CountsCalled(r, f) :: Key(r.module_, f.id)
  }

  function ReachedKeys(rows: seq<Row>): set<Key> {
    set r, f | r in rows && f in r.findings && CountsReached(r, f) :: Key(r.module_, f.id)
  }

  /** A row and one of its findings, as the nested loops meet them. */
  datatype Met = Met(row: Row, finding: Finding)

  function MetInRow(r: Row, n: nat): (m: seq<Met>)
    requires n <= |r.findings|
    ensures |m| == n
  {
    if n == 0 then [] else MetInRow(r, n - 1) + [Met(r, r.findings[n - 1])]
  }

  function AllMet(rows: seq<Row>, n: nat): seq<Met>
    requires n <= |rows|
  {
    if n == 0 then [] else AllMet(rows, n - 1) + MetInRow(rows[n - 1], |rows[n - 1].findings|)
  }

  lemma {:induction false} MetInRowIsFindings(r: Row, n: nat, x: Met)
    requires n <= |r.findings|
    ensures x in MetInRow(r, n) <==> x.row == r && x.finding in r.findings[..n]
  {
    if n > 0 {
      MetInRowIsFindings(r, n - 1, x);
      assert r.findings[..n] == r.findings[..n - 1] + [r.findings[n - 1]];
    }
  }

  /** The loops meet every finding of every row. */
  lemma {:induction false} AllMetIsAll(rows: seq<Row>, n: nat, x: Met)
    requires n <= |rows|
    ensures x in AllMet(rows, n) <==> x.row in rows[..n] && x.finding in x.row.findings
  {
    if n > 0 {
      AllMetIsAll(rows, n - 1, x);
      MetInRowIsFindings(rows[n - 1], |rows[n - 1].findings|, x);
      assert rows[n - 1].findings[..|rows[n - 1].findings|] == rows[n - 1].findings;
      assert rows[..n] == rows[..n - 1] + [rows[n - 1]];
    }
  }

  function CriticalIds(m: seq<Met>): seq<string> {
    if m == [] then []
    else
      var before, x := CriticalIds(m[..|m| - 1]), m[|m| - 1];
      if CountsCritical(x.row, x.finding) then before + [x.finding.id] else before
  }

  function ExploitedIds(m: seq<Met>): seq<string> {
    if m == [] then []
    else
      var before, x := ExploitedIds(m[..|m| - 1]), m[|m| - 1];
      if CountsExploited(x.row, x.finding) then before + [x.finding.id] else before
  }

  /** The loop variable that keeps the smallest ID, with "" standing for none so far. */
  function KeepSmallest(ids: seq<string>): string {
    if ids == [] then ""
    else
      var before, id := KeepSmallest(ids[..|ids| - 1]), ids[|ids| - 1];
      if before == "" || Less(id, before) then id else before
  }

  /** The rule the variable guards fires exactly when the last such advisory met has an ID: an advisory without one sorts
      before every other and wipes out what was kept. */
  lemma KeptUnlessLastIsEmpty(ids: seq<string>)
    ensures KeepSmallest(ids) != "" <==> ids != [] && ids[|ids| - 1] != ""
  {
  }

  /** With every ID present the variable holds the smallest, whatever the order. */
  lemma {:induction false} KeepsSmallest(ids: seq<string>)
    requires forall i :: 0 <= i < |ids| ==> ids[i] != ""
    ensures ids != [] ==> KeepSmallest(ids) in ids && forall x :: x in ids ==> !Less(x, KeepSmallest(ids))
  {
    if |ids| > 0 {
      var init, id := ids[..|ids| - 1], ids[|ids| - 1];
      KeepsSmallest(init);
      KeptUnlessLastIsEmpty(init);
      assert ids == init + [id];
      LessIrreflexive(id);
      forall x | x in ids ensures !Less(x, KeepSmallest(ids)) {
        if init != [] && x in init && Less(id, KeepSmallest(init)) {
          if Less(x, id) { LessTransitive(x, id, KeepSmallest(init)); }
        }
      }
    }
  }

  /** The highest whole-tree rule that applies. */
  function TreeRuleOf(input: Input): Option<TreeRow> {
    var rows := RowsOf(input);
    var met := AllMet(rows, |rows|);
    if input.checksumMismatch then Some(TreeRow(ChecksumMismatch, TREE_F_SCORE))
    else if KeepSmallest(ExploitedIds(met)) != "" then Some(TreeRow(CalledExploited, TREE_F_SCORE))
    else if KeepSmallest(CriticalIds(met)) != "" then Some(TreeRow(CalledCritical, TREE_F_SCORE))
    else if |CalledKeys(rows)| >= TREE_CALLED_FINDINGS then Some(TreeRow(CalledFindings, TREE_F_SCORE))
    else if |ReachedKeys(rows)| >= TREE_IMPORTED_OR_CALLED then Some(TreeRow(ImportedAndCalledFindings, TREE_D_SCORE))
    else None
  }

  datatype Counts = Counts(calledHC: set<Key>, anyHC: set<Key>, calledCritical: string, calledExploited: string)

  function CountStep(c: Counts, r: Row, f: Finding): Counts {
    var k := Key(r.module_, f.id);
    Counts(if CountsCalled(r, f) then c.calledHC + {k} else c.calledHC,
           if CountsReached(r, f) then c.anyHC + {k} else c.anyHC,
           if CountsCritical(r, f) && (c.calledCritical == "" || Less(f.id, c.calledCritical)) then f.id else c.calledCritical,
           if CountsExploited(r, f) && (c.calledExploited == "" || Less(f.id, c.calledExploited)) then f.id else c.calledExploited)
  }

  function CountRowUpTo(c: Counts, r: Row, n: nat): Counts
    requires n <= |r.findings|
  {
    if n == 0 then c else CountStep(CountRowUpTo(c, r, n - 1), r, r.findings[n - 1])
  }

  function CountRows(rows: seq<Row>, n: nat): Counts
    requires n <= |rows|
  {
    if n == 0 then Counts({}, {}, "", "") else CountRowUpTo(CountRows(rows, n - 1), rows[n - 1], |rows[n - 1].findings|)
  }

  method CountRow(r: Row, c0: Counts) returns (c: Counts)
    ensures c == CountRowUpTo(c0, r, |r.findings|)
  {
    c := c0;
    if r.testOnly == Yes {
      SkippedCountNothing(r, |r.findings|, c0);
      return;
    }
    for i := 0 to |r.findings|
      invariant c == CountRowUpTo(c0, r, i)
    {
      var f := r.findings[i];
      var sf := ScoreFinding(f, r);
      var k := Key(r.module_, f.id);
      if sf.tier == TierCalled && HighOrCritical(sf.sev) {
        c := c.(calledHC := c.calledHC + {k});
      }
      if (sf.tier == TierCalled || sf.tier == TierImported) && HighOrCritical(sf.sev) {
        c := c.(anyHC := c.anyHC + {k});
      }
      if sf.tier == TierCalled && sf.sev == Critical && (c.calledCritical == "" || Less(f.id, c.calledCritical)) {
        c := c.(calledCritical := f.id);
      }
      if sf.tier == TierCalled && f.exploited && (c.calledExploited == "" || Less(f.id, c.calledExploited)) {
        c := c.(calledExploited := f.id);
      }
    }
  }

  lemma {:induction false} SkippedCountNothing(r: Row, n: nat, c: Counts)
    requires r.testOnly == Yes && n <= |r.findings|
    ensures CountRowUpTo(c, r, n) == c
  {
    if n > 0 { SkippedCountNothing(r, n - 1, c); }
  }

  /** The loops over a stretch of findings, whichever rows they come from, are one fold. */
  function CountMet(m: seq<Met>): Counts {
    if m == [] then Counts({}, {}, "", "")
    else CountStep(CountMet(m[..|m| - 1]), m[|m| - 1].row, m[|m| - 1].finding)
  }

  lemma {:induction false} RowIsFold(m: seq<Met>, r: Row, n: nat)
    requires n <= |r.findings|
    ensures CountRowUpTo(CountMet(m), r, n) == CountMet(m + MetInRow(r, n))
  {
    if n == 0 {
      assert m + MetInRow(r, 0) == m;
    } else {
      RowIsFold(m, r, n - 1);
      var before := m + MetInRow(r, n - 1);
      var all := m + MetInRow(r, n);
      assert all == before + [Met(r, r.findings[n - 1])];
      assert all[..|all| - 1] == before;
    }
  }

  lemma {:induction false} RowsAreFold(rows: seq<Row>, n: nat)
    requires n <= |rows|
    ensures CountRows(rows, n) == CountMet(AllMet(rows, n))
  {
    if n > 0 {
      var r, before := rows[n - 1], AllMet(rows, n - 1);
      calc {
        CountRows(rows, n);
        CountRowUpTo(CountRows(rows, n - 1), r, |r.findings|);
        { RowsAreFold(rows, n - 1); }
        CountRowUpTo(CountMet(before), r, |r.findings|);
        { RowIsFold(before, r, |r.findings|); }
        CountMet(before + MetInRow(r, |r.findings|));
        CountMet(AllMet(rows, n));
      }
    } else {
      assert CountMet([]) == Counts({}, {}, "", "");
    }
  }

  lemma {:induction false} FoldCollects(m: seq<Met>)
    ensures forall k :: k in CountMet(m).calledHC <==>
      exists x :: x in m && CountsCalled(x.row, x.finding) && k == Key(x.row.module_, x.finding.id)
    ensures forall k :: k in CountMet(m).anyHC <==>
      exists x :: x in m && CountsReached(x.row, x.finding) && k == Key(x.row.module_, x.finding.id)
    ensures CountMet(m).calledCritical == KeepSmallest(CriticalIds(m))
    ensures CountMet(m).calledExploited == KeepSmallest(ExploitedIds(m))
  {
    if m != [] {
      var n := |m| - 1;
      FoldCollects(m[..n]);
      assert forall x :: x in m <==> x in m[..n] || x == m[n];
      assert CountsCritical(m[n].row, m[n].finding) ==> CriticalIds(m)[..|CriticalIds(m[..n])|] == CriticalIds(m[..n]);
      assert CountsExploited(m[n].row, m[n].finding) ==> ExploitedIds(m)[..|ExploitedIds(m[..n])|] == ExploitedIds(m[..n]);
    }
  }

  lemma CountsMeanKeys(rows: seq<Row>)
    ensures CountRows(rows, |rows|) == Counts(CalledKeys(rows), ReachedKeys(rows),
      KeepSmallest(CriticalIds(AllMet(rows, |rows|))), KeepSmallest(ExploitedIds(AllMet(rows, |rows|))))
  {
    var m := AllMet(rows, |rows|);
    RowsAreFold(rows, |rows|);
    FoldCollects(m);
    var c := CountRows(rows, |rows|);
    assert rows[..|rows|] == rows;
    forall x ensures x in m <==> x.row in rows && x.finding in x.row.findings { AllMetIsAll(rows, |rows|, x); }
    assert forall r, f :: r in rows && f in r.findings ==> Met(r, f) in m;
    assert c.calledHC == CalledKeys(rows);
    assert c.anyHC == ReachedKeys(rows);
  }

  /** treeRule: nested loops over the rows and their findings, then the highest rule. */
  method TreeRule(input: Input) returns (t: Option<TreeRow>)
    ensures t == TreeRuleOf(input)
  {
    var rows := RowsOf(input);
    var c := Counts({}, {}, "", "");
    for i := 0 to |rows|
      invariant c == CountRows(rows, i)
    {
      c := CountRow(rows[i], c);
    }
    CountsMeanKeys(rows);
    if input.checksumMismatch {
      t := Some(TreeRow(ChecksumMismatch, TREE_F_SCORE));
    } else if c.calledExploited != "" {
      t := Some(TreeRow(CalledExploited, TREE_F_SCORE));
    } else if c.calledCritical != "" {
      t := Some(TreeRow(CalledCritical, TREE_F_SCORE));
    } else if |c.calledHC| >= TREE_CALLED_FINDINGS {
      t := Some(TreeRow(CalledFindings, TREE_F_SCORE));
    } else if |c.anyHC| >= TREE_IMPORTED_OR_CALLED {
      t := Some(TreeRow(ImportedAndCalledFindings, TREE_D_SCORE));
    } else {
      t := None;
    }
  }
}
