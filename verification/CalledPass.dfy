/** Skipping govulncheck's called pass (pkg/grade/calledpass.go): the test, and the promise that its false answer makes. */
module CalledPass {
  import opened GradeTypes
  import opened Ordering
  import opened Scoring
  import opened DedupeLaws
  import opened Tree
  import opened Evidence
  import opened Letters

  /** A scanned vulnerability, as the test reads it: aliases are not looked at. */
  datatype Vuln = Vuln(id: string, severity: Severity, reach: Reach, inKEV: bool)

  datatype Reason = NothingImported | ExploitedImported | UnratedImported | BandDiffers | SameBands

  /** What a called verdict would cost: the finding is exploited, unrated, high or critical. */
  predicate Loud(severity: Severity, exploited: bool) {
    exploited || severity == Unrated || HighOrCritical(severity)
  }

  ghost predicate SomeLoud(vs: seq<Vuln>) {
    exists v :: v in vs && v.reach == Imported && Loud(v.severity, v.inKEV)
  }

  /** The exact answer of the test: some imported advisory is exploited, unrated, high or critical. */
  ghost predicate Needed(scan: map<string, seq<Vuln>>) {
    exists m :: m in scan && SomeLoud(scan[m])
  }

  /** The finding the test makes of an imported vulnerability. */
  function AsFinding(v: Vuln, reach: Reach): Finding { Finding(v.id, [], v.severity, reach, false, v.inKEV) }

  function ScanFindings(vs: seq<Vuln>, reach: Reach): seq<Finding> {
    if vs == [] then []
    else
      var n := |vs| - 1;
      if vs[n].reach == Imported then ScanFindings(vs[..n], reach) + [AsFinding(vs[n], reach)]
      else ScanFindings(vs[..n], reach)
  }

  lemma {:induction false} ScanFindingsAre(vs: seq<Vuln>, reach: Reach)
    ensures forall f :: f in ScanFindings(vs, reach) ==> exists v :: v in vs && v.reach == Imported && f == AsFinding(v, reach)
    ensures forall v :: v in vs && v.reach == Imported ==> AsFinding(v, reach) in ScanFindings(vs, reach)
  {
    if vs != [] {
      var n := |vs| - 1;
      assert vs == vs[..n] + [vs[n]];
      ScanFindingsAre(vs[..n], reach);
    }
  }

  const NO_UPKEEP := Upkeep(false, false, false, false, false, false)

  function ScanRow(m: string, vs: seq<Vuln>, testOnly: Tri, reach: Reach): Row {
    Row(m, false, true, testOnly, Unknown, ScanFindings(vs, reach), NO_UPKEEP)
  }

  function ScanInput(deps: seq<Row>): Input {
    Input(Row("", false, false, Unknown, Unknown, [], NO_UPKEEP), deps, false,
          Checks(false, false, false, false, false, 0, false))
  }

  // ---- The rules the test asks ----

  method RowVulnBandOf(r: Row) returns (l: Letter)
    ensures l == BandOf(RowVuln(r).score)
  {
    var score, _ := VulnScoreRow(r, ScoreAll(r.findings, r));
    l := BandOf(score);
  }

  function TreeBand(input: Input): Letter {
    var t := TreeRuleOf(input);
    if t.Some? then BandOf(t.value.score) else LetterA
  }

  method TreeBandOf(input: Input) returns (l: Letter)
    ensures l == TreeBand(input)
  {
    var t := TreeRule(input);
    l := if t.Some? then BandOf(t.value.score) else LetterA;
  }

  // ---- A quiet finding scores in the same band called or imported ----

  lemma QuietAlone(r: Row, f: Finding, g: Finding)
    requires g == f.(reach := g.reach) && {f.reach, g.reach} <= {Imported, Called}
    requires !Loud(f.severity, f.exploited)
    ensures Alone(r, f) == Alone(r, g)
    ensures !CountsCalled(r, f) && !CountsReached(r, f) && !CountsCalled(r, g) && !CountsReached(r, g)
  {
  }

  lemma LoudAlone(r: Row, f: Finding)
    requires !r.isSelf && r.testOnly != Yes && r.inBuild != No && HighOrCritical(f.severity)
    ensures f.reach == Called ==> AtLeast(Alone(r, f), LetterD)
    ensures f.reach == Imported ==> !AtLeast(Alone(r, f), LetterD)
  {
  }

  lemma NoHighIds(r: Row)
    requires forall f :: f in r.findings ==> !HighOrCritical(f.severity)
    ensures RowHighIds(r) == {}
  {
    forall x | x in CalledOf(r) ensures !HighOrCritical(x.sev) { ScoredFromFinding(r, x); }
  }

  lemma QuietReaches(m: string, vs: seq<Vuln>, testOnly: Tri, from: Reach, to: Reach, l: Letter)
    requires {from, to} <= {Imported, Called}
    requires forall v :: v in vs && v.reach == Imported ==> !Loud(v.severity, v.inKEV)
    requires SomeAlone(ScanRow(m, vs, testOnly, from), l)
    ensures SomeAlone(ScanRow(m, vs, testOnly, to), l)
  {
    var a, b := ScanRow(m, vs, testOnly, from), ScanRow(m, vs, testOnly, to);
    ScanFindingsAre(vs, from);
    ScanFindingsAre(vs, to);
    var f :| f in a.findings && AtLeast(Alone(a, f), l);
    var v :| v in vs && v.reach == Imported && f == AsFinding(v, from);
    QuietAlone(a, f, AsFinding(v, to));
    assert AsFinding(v, to) in b.findings;
  }

  lemma QuietScanRowBelow(m: string, vs: seq<Vuln>, testOnly: Tri, from: Reach, to: Reach)
    requires {from, to} <= {Imported, Called}
    requires forall v :: v in vs && v.reach == Imported ==> !Loud(v.severity, v.inKEV)
    ensures AtLeast(BandOf(RowVuln(ScanRow(m, vs, testOnly, to)).score), BandOf(RowVuln(ScanRow(m, vs, testOnly, from)).score))
  {
    var a, b := ScanRow(m, vs, testOnly, from), ScanRow(m, vs, testOnly, to);
    var l := BandOf(RowVuln(a).score);
    ScanFindingsAre(vs, from);
    NoHighIds(a);
    RowVulnBand(a, l);
    if SomeAlone(a, l) { QuietReaches(m, vs, testOnly, from, to, l); }
    RowVulnBand(b, l);
  }

  /** A row whose imported findings are all quiet has the same band when they are called. */
  lemma QuietScanRow(m: string, vs: seq<Vuln>, testOnly: Tri)
    requires forall v :: v in vs && v.reach == Imported ==> !Loud(v.severity, v.inKEV)
    ensures BandOf(RowVuln(ScanRow(m, vs, testOnly, Imported)).score) == BandOf(RowVuln(ScanRow(m, vs, testOnly, Called)).score)
  {
    QuietScanRowBelow(m, vs, testOnly, Imported, Called);
    QuietScanRowBelow(m, vs, testOnly, Called, Imported);
    SameRank(BandOf(RowVuln(ScanRow(m, vs, testOnly, Imported)).score), BandOf(RowVuln(ScanRow(m, vs, testOnly, Called)).score));
  }

  lemma LoudCalledRow(m: string, vs: seq<Vuln>, v: Vuln)
    requires v in vs && v.reach == Imported && HighOrCritical(v.severity)
    ensures AtLeast(BandOf(RowVuln(ScanRow(m, vs, Unknown, Called)).score), LetterD)
  {
    var b := ScanRow(m, vs, Unknown, Called);
    ScanFindingsAre(vs, Called);
    RowVulnBand(b, LetterD);
    LoudAlone(b, AsFinding(v, Called));
    assert SomeAlone(b, LetterD);
  }

  /** An imported row is at most C. */
  lemma ImportedRowStaysLow(m: string, vs: seq<Vuln>)
    ensures !AtLeast(BandOf(RowVuln(ScanRow(m, vs, Unknown, Imported)).score), LetterD)
  {
    var a := ScanRow(m, vs, Unknown, Imported);
    ScanFindingsAre(vs, Imported);
    RowVulnBand(a, LetterD);
    forall f | f in a.findings ensures !AtLeast(Alone(a, f), LetterD) {}
    forall x | x in CalledOf(a) ensures false { ScoredFromFinding(a, x); }
    assert RowHighIds(a) == {};
  }

  /** Without a high, critical or exploited finding no whole-tree rule applies. */
  lemma QuietTree(rows: seq<Row>)
    requires forall r, f :: r in rows && f in r.findings ==> !Loud(f.severity, f.exploited)
    ensures TreeBand(ScanInput(rows)) == LetterA
  {
    var all := RowsOf(ScanInput(rows));
    assert forall r, f :: r in all && f in r.findings ==> !Loud(f.severity, f.exploited);
    assert CalledKeys(all) == {} && ReachedKeys(all) == {};
    var met := AllMet(all, |all|);
    assert all[..|all|] == all;
    KeptUnlessLastIsEmpty(ExploitedIds(met));
    KeptUnlessLastIsEmpty(CriticalIds(met));
    if ExploitedIds(met) != [] || CriticalIds(met) != [] {
      var x := SomeMet(met);
      AllMetIsAll(all, |all|, x);
    }
  }

  // ---- The test ----

  datatype Tally = Tally(count: nat, noSev: nat, exploit: nat)

  function TallyOf(vs: seq<Vuln>): Tally {
    if vs == [] then Tally(0, 0, 0)
    else
      var n := |vs| - 1;
      var t, v := TallyOf(vs[..n]), vs[n];
      if v.reach != Imported then t
      else Tally(t.count + 1, t.noSev + (if v.severity == Unrated then 1 else 0), t.exploit + (if v.inKEV then 1 else 0))
  }

  ghost predicate NoneImported(vs: seq<Vuln>) { forall v :: v in vs ==> v.reach != Imported }

  ghost predicate AllRated(vs: seq<Vuln>) { forall v :: v in vs && v.reach == Imported ==> v.severity != Unrated }

  ghost predicate NoneExploited(vs: seq<Vuln>) { forall v :: v in vs && v.reach == Imported ==> !v.inKEV }

  lemma {:induction false} TallyMeans(vs: seq<Vuln>)
    ensures TallyOf(vs).count == 0 <==> NoneImported(vs)
    ensures TallyOf(vs).noSev == 0 <==> AllRated(vs)
    ensures TallyOf(vs).exploit == 0 <==> NoneExploited(vs)
  {
    if vs != [] {
      var n := |vs| - 1;
      TallyMeans(vs[..n]);
      assert vs == vs[..n] + [vs[n]];
    }
  }

  /** The inner loop: one module's imported findings, as imported and as called. */
  method BuildRows(m: string, vs: seq<Vuln>, testOnly: Tri) returns (ri: Row, rc: Row, t: Tally)
    ensures ri == ScanRow(m, vs, testOnly, Imported) && rc == ScanRow(m, vs, testOnly, Called) && t == TallyOf(vs)
  {
    var fi: seq<Finding> := [];
    var fc: seq<Finding> := [];
    t := Tally(0, 0, 0);
    for i := 0 to |vs|
      invariant fi == ScanFindings(vs[..i], Imported) && fc == ScanFindings(vs[..i], Called) && t == TallyOf(vs[..i])
    {
      var v := vs[i];
      assert vs[..i + 1][..i] == vs[..i];
      if v.reach == Imported {
        t := t.(count := t.count + 1);
        if v.severity == Unrated {
          t := t.(noSev := t.noSev + 1);
        }
        if v.inKEV {
          t := t.(exploit := t.exploit + 1);
        }
        fi := fi + [AsFinding(v, Imported)];
        fc := fc + [AsFinding(v, Called)];
      }
    }
    assert vs[..|vs|] == vs;
    ri := Row(m, false, true, testOnly, Unknown, fi, NO_UPKEEP);
    rc := ri.(findings := fc);
  }

  ghost predicate Differs(m: string, vs: seq<Vuln>) {
    || BandOf(RowVuln(ScanRow(m, vs, Unknown, Imported)).score) != BandOf(RowVuln(ScanRow(m, vs, Unknown, Called)).score)
    || BandOf(RowVuln(ScanRow(m, vs, Yes, Imported)).score) != BandOf(RowVuln(ScanRow(m, vs, Yes, Called)).score)
  }

  lemma {:induction false} NoFindings(vs: seq<Vuln>, reach: Reach)
    requires forall v :: v in vs ==> v.reach != Imported
    ensures ScanFindings(vs, reach) == []
  {
    if vs != [] { NoFindings(vs[..|vs| - 1], reach); }
  }

  lemma NothingImportedNoFindings(m: string, vs: seq<Vuln>, testOnly: Tri)
    requires forall v :: v in vs ==> v.reach != Imported
    ensures ScanFindings(vs, Imported) == [] && ScanFindings(vs, Called) == []
    ensures BandOf(RowVuln(ScanRow(m, vs, testOnly, Imported)).score) == BandOf(RowVuln(ScanRow(m, vs, testOnly, Called)).score)
  {
    NoFindings(vs, Imported);
    NoFindings(vs, Called);
  }

  /** One module, with and without the test-only halving. */
  method TestModule(m: string, vs: seq<Vuln>) returns (ri: Row, rc: Row, t: Tally, differs: bool)
    ensures ri == ScanRow(m, vs, Unknown, Imported) && rc == ScanRow(m, vs, Unknown, Called) && t == TallyOf(vs)
    ensures differs <==> Differs(m, vs)
  {
    ri, rc, t := BuildRows(m, vs, Unknown);
    differs := false;
    if |ri.findings| == 0 {
      ScanFindingsAre(vs, Imported);
      NothingImportedNoFindings(m, vs, Unknown);
      NothingImportedNoFindings(m, vs, Yes);
      return;
    }
    var a := RowVulnBandOf(ri);
    var b := RowVulnBandOf(rc);
    var ti, tc, _ := BuildRows(m, vs, Yes);
    var ta := RowVulnBandOf(ti);
    var tb := RowVulnBandOf(tc);
    differs := a != b || ta != tb;
  }

  lemma QuietModule(m: string, vs: seq<Vuln>)
    requires !SomeLoud(vs)
    ensures !Differs(m, vs)
  {
    QuietScanRow(m, vs, Unknown);
    QuietScanRow(m, vs, Yes);
  }

  ghost predicate RowsFrom(rows: seq<Row>, scan: map<string, seq<Vuln>>, reach: Reach) {
    forall r :: r in rows ==> exists m :: m in scan && r == ScanRow(m, scan[m], Unknown, reach)
  }

  /** The last case of the switch is exact once nothing imported is exploited or unrated. */
  lemma LastCaseExact(scan: map<string, seq<Vuln>>, rows: seq<Row>, calledRows: seq<Row>, bandDiff: bool)
    requires forall m :: m in scan ==> NoneExploited(scan[m]) && AllRated(scan[m])
    requires bandDiff <==> exists m :: m in scan && Differs(m, scan[m])
    requires RowsFrom(rows, scan, Imported) && RowsFrom(calledRows, scan, Called)
    ensures bandDiff || TreeBand(ScanInput(rows)) != TreeBand(ScanInput(calledRows)) <==> Needed(scan)
  {
    if m :| m in scan && SomeLoud(scan[m]) {
      var v :| v in scan[m] && v.reach == Imported && Loud(v.severity, v.inKEV);
      LoudCalledRow(m, scan[m], v);
      ImportedRowStaysLow(m, scan[m]);
      assert Differs(m, scan[m]);
    } else {
      forall m | m in scan ensures !Differs(m, scan[m]) { QuietModule(m, scan[m]); }
      QuietRowsFrom(rows, scan, Imported);
      QuietRowsFrom(calledRows, scan, Called);
      QuietTree(rows);
      QuietTree(calledRows);
    }
  }

  lemma QuietRowsFrom(rows: seq<Row>, scan: map<string, seq<Vuln>>, reach: Reach)
    requires RowsFrom(rows, scan, reach) && !Needed(scan)
    ensures forall r, f :: r in rows && f in r.findings ==> !Loud(f.severity, f.exploited)
  {
    forall r, f | r in rows && f in r.findings ensures !Loud(f.severity, f.exploited) {
      var m :| m in scan && r == ScanRow(m, scan[m], Unknown, reach);
      ScanFindingsAre(scan[m], reach);
      var v :| v in scan[m] && v.reach == Imported && f == AsFinding(v, reach);
      assert !SomeLoud(scan[m]);
    }
  }

  /** The scan's modules seen so far, tallied; diff holds those whose bands differ. */
  ghost predicate Tallied(scan: map<string, seq<Vuln>>, done: set<string>, count: int, noSev: int, exploit: int) {
    && done <= scan.Keys && count >= 0 && noSev >= 0 && exploit >= 0
    && (count == 0 <==> forall m :: m in done ==> NoneImported(scan[m]))
    && (noSev == 0 <==> forall m :: m in done ==> AllRated(scan[m]))
    && (exploit == 0 <==> forall m :: m in done ==> NoneExploited(scan[m]))
  }

  ghost predicate DiffersAre(scan: map<string, seq<Vuln>>, done: set<string>, diff: set<string>) {
    diff <= done <= scan.Keys && forall m :: m in done ==> (m in diff <==> Differs(m, scan[m]))
  }

  lemma TallyOneMore(scan: map<string, seq<Vuln>>, done: set<string>, count: int, noSev: int, exploit: int, m: string)
    requires Tallied(scan, done, count, noSev, exploit) && m in scan
    ensures var t := TallyOf(scan[m]); Tallied(scan, done + {m}, count + t.count, noSev + t.noSev, exploit + t.exploit)
  {
    TallyMeans(scan[m]);
    var after := done + {m};
    assert m in after && forall x :: x in done ==> x in after;
    assert forall x :: x in after ==> x in done || x == m;
  }

  lemma DiffersOneMore(scan: map<string, seq<Vuln>>, done: set<string>, diff: set<string>, m: string, differs: bool)
    requires DiffersAre(scan, done, diff) && m in scan && (differs <==> Differs(m, scan[m]))
    ensures DiffersAre(scan, done + {m}, if differs then diff + {m} else diff - {m})
  {
    hide Differs;
  }

  lemma RowsOneMore(rows: seq<Row>, scan: map<string, seq<Vuln>>, reach: Reach, m: string)
    requires RowsFrom(rows, scan, reach) && m in scan
    ensures RowsFrom(rows + [ScanRow(m, scan[m], Unknown, reach)], scan, reach)
  {
  }

  datatype Gathered = Gathered(count: int, noSev: int, exploit: int, bandDiff: bool, importedRows: seq<Row>, calledRows: seq<Row>)

  ghost predicate GatheredFrom(g: Gathered, scan: map<string, seq<Vuln>>, done: set<string>, diff: set<string>) {
    && Tallied(scan, done, g.count, g.noSev, g.exploit)
    && DiffersAre(scan, done, diff) && (g.bandDiff ==> diff != {}) && (diff <= done && diff != {} ==> g.bandDiff)
    && RowsFrom(g.importedRows, scan, Imported) && RowsFrom(g.calledRows, scan, Called)
  }

  method GatherModule(scan: map<string, seq<Vuln>>, g0: Gathered, m: string, ghost done: set<string>,
                      ghost diff0: set<string>)
    returns (g: Gathered, ghost diff: set<string>)
    requires GatheredFrom(g0, scan, done, diff0) && m in scan
    ensures GatheredFrom(g, scan, done + {m}, diff)
  {
    var ri, rc, t, differs := TestModule(m, scan[m]);
    TallyOneMore(scan, done, g0.count, g0.noSev, g0.exploit, m);
    DiffersOneMore(scan, done, diff0, m, differs);
    RowsOneMore(g0.importedRows, scan, Imported, m);
    RowsOneMore(g0.calledRows, scan, Called, m);
    diff := if differs then diff0 + {m} else diff0 - {m};
    g := g0.(count := g0.count + t.count, noSev := g0.noSev + t.noSev, exploit := g0.exploit + t.exploit,
             bandDiff := g0.bandDiff || differs);
    if |ri.findings| > 0 {
      g := g.(importedRows := g.importedRows + [ri], calledRows := g.calledRows + [rc]);
    }
  }

  ghost function SetOf(s: seq<string>): set<string> { set x | x in s }

  lemma NextModule(modules: seq<string>, k: nat)
    requires k < |modules|
    ensures modules[k] in modules
    ensures SetOf(modules[..k + 1]) == SetOf(modules[..k]) + {modules[k]}
  {
    assert modules[..k + 1] == modules[..k] + [modules[k]];
  }

  lemma GatherStart(scan: map<string, seq<Vuln>>, modules: seq<string>)
    requires modules == Sorted(scan.Keys)
    ensures GatheredFrom(Gathered(0, 0, 0, false, [], []), scan, SetOf(modules[..0]), {})
    ensures SetOf(modules) == scan.Keys
  {
  }

  method Gather(scan: map<string, seq<Vuln>>) returns (g: Gathered, ghost diff: set<string>)
    ensures GatheredFrom(g, scan, scan.Keys, diff)
  {
    hide *;
    var modules := SortKeys(scan.Keys);
    g, diff := Gathered(0, 0, 0, false, [], []), {};
    GatherStart(scan, modules);
    for k := 0 to |modules|
      invariant GatheredFrom(g, scan, SetOf(modules[..k]), diff)
    {
      NextModule(modules, k);
      g, diff := GatherModule(scan, g, modules[k], SetOf(modules[..k]), diff);
    }
    assert modules[..|modules|] == modules;
  }

  /** CalledPassCanChangeLetter: it asks the rules themselves, and its answer is exactly Needed. */
  method CalledPassCanChangeLetter(scan: map<string, seq<Vuln>>) returns (needed: bool, reason: Reason)
    ensures needed <==> Needed(scan)
    ensures reason == NothingImported <==> forall m :: m in scan ==> NoneImported(scan[m])
    ensures reason == ExploitedImported <==> !forall m :: m in scan ==> NoneExploited(scan[m])
    ensures reason == UnratedImported <==>
      (forall m :: m in scan ==> NoneExploited(scan[m])) && !forall m :: m in scan ==> AllRated(scan[m])
    ensures reason == SameBands <==> !needed && !forall m :: m in scan ==> NoneImported(scan[m])
  {
    hide Needed, NoneImported, NoneExploited, AllRated, Differs, DiffersAre, RowsFrom, TreeBand, ScanInput;
    var g, diff := Gather(scan);
    if g.count == 0 {
      NoneImportedNotNeeded(scan);
      return false, NothingImported;
    }
    if g.exploit > 0 {
      LoudNeeded(scan);
      return true, ExploitedImported;
    } else if g.noSev > 0 {
      LoudNeeded(scan);
      return true, UnratedImported;
    }
    DiffSetMeans(scan, diff);
    LastCaseExact(scan, g.importedRows, g.calledRows, g.bandDiff);
    var ti := TreeBandOf(ScanInput(g.importedRows));
    var tc := TreeBandOf(ScanInput(g.calledRows));
    if g.bandDiff || ti != tc {
      return true, BandDiffers;
    }
    return false, SameBands;
  }

  lemma NoneImportedNotNeeded(scan: map<string, seq<Vuln>>)
    requires forall m :: m in scan ==> NoneImported(scan[m])
    ensures !Needed(scan) && forall m :: m in scan ==> NoneExploited(scan[m]) && AllRated(scan[m])
  {
  }

  lemma LoudNeeded(scan: map<string, seq<Vuln>>)
    ensures !(forall m :: m in scan ==> NoneExploited(scan[m])) ==> Needed(scan)
    ensures !(forall m :: m in scan ==> AllRated(scan[m])) ==> Needed(scan)
  {
    if m :| m in scan && !NoneExploited(scan[m]) { assert SomeLoud(scan[m]); }
    if m :| m in scan && !AllRated(scan[m]) { assert SomeLoud(scan[m]); }
  }

  lemma DiffSetMeans(scan: map<string, seq<Vuln>>, diff: set<string>)
    requires DiffersAre(scan, scan.Keys, diff)
    ensures diff <= scan.Keys && (diff != {} <==> exists m :: m in scan && Differs(m, scan[m]))
  {
    if m :| m in diff { assert m in scan; }
  }
}
