/** The promise behind a skipped called pass: no finding it could have moved would have changed the grade. */
module SkippedPass {
  import opened GradeTypes
  import opened Scoring
  import opened Dedupe
  import opened DedupeLaws
  import opened Tree
  import opened PendingRule
  import opened Engine
  import opened Evidence
  import opened Letters
  import opened Relations
  import opened Sandwich
  import opened CalledPass
  import opened Promotion

  /** The row's imported findings are those of the scan the test read. */
  ghost predicate FromScan(r: Row, scan: map<string, seq<Vuln>>) {
    forall f :: f in r.findings && f.reach == Imported ==>
      r.module_ in scan && exists v :: v in scan[r.module_] && v == Vuln(f.id, f.severity, Imported, f.exploited)
  }

  /** No group of aliases that counts as imported has an exploited, high or critical member: the test reads each imported
      advisory by itself and drops its aliases. */
  ghost predicate QuietAliases(r: Row) {
    forall i, g :: 0 <= i < |r.findings| && TopReach(Class(r.findings, i)) == Imported && g in Class(r.findings, i) ==>
      !g.exploited && !HighOrCritical(g.severity)
  }

  /** Once the aliases are merged, nothing that is still imported is exploited, unrated, high or critical. */
  ghost predicate QuietMerged(a: Input) {
    forall d, f :: d in MergedInput(a).deps && f in d.findings && f.reach == Imported ==> !Loud(f.severity, f.exploited)
  }

  /** Equal, or told apart only by a tier that makes no difference to them. */
  predicate Mute(f: Finding, g: Finding) {
    || g == f
    || (g == f.(reach := g.reach) && {f.reach, g.reach} <= {Undetermined, Called})
    || (g == f.(reach := g.reach) && {f.reach, g.reach} <= {Imported, Called}
        && !Loud(f.severity, f.exploited) && !f.lookupFailed)
  }

  // ---- Mute differences do not grade ----

  lemma MuteDominates(r: Row, f: Finding, g: Finding)
    requires Mute(f, g)
    ensures Dominates(r, f, g)
  {
    if f != g && (f.reach == Imported || g.reach == Imported) { QuietAlone(r, f, g); }
  }

  lemma MuteIsDominated(a: Input, b: Input)
    requires InputRel(a, b, Mute)
    ensures Dominated(a, b)
  {
    forall r, f, g | Mute(f, g) ensures Dominates(r, f, g) { MuteDominates(r, f, g); }
    hide Dominates, Mute;
    assert RowDominated(a.self, b.self);
    forall i | 0 <= i < |a.deps| ensures RowDominated(a.deps[i], b.deps[i]) {
      assert RowRel(a.deps[i], b.deps[i], Mute);
    }
  }

  lemma MuteSymmetric(a: Input, b: Input)
    requires InputRel(a, b, Mute)
    ensures InputRel(b, a, Mute)
  {
    MuteRowSymmetric(a.self, b.self);
    forall i | 0 <= i < |b.deps| ensures RowRel(b.deps[i], a.deps[i], Mute) { MuteRowSymmetric(a.deps[i], b.deps[i]); }
  }

  lemma MuteRowSymmetric(a: Row, b: Row)
    requires RowRel(a, b, Mute)
    ensures RowRel(b, a, Mute)
  {
    forall j | 0 <= j < |b.findings| ensures Mute(b.findings[j], a.findings[j]) {
      assert Mute(a.findings[j], b.findings[j]);
    }
  }

  lemma MuteSameLetter(a: Input, b: Input)
    requires InputRel(a, b, Mute)
    ensures RawLetter(a) == RawLetter(b)
  {
    hide *;
    MuteSymmetric(a, b);
    MuteIsDominated(a, b);
    MuteIsDominated(b, a);
    LetterGrows(a, b);
    LetterGrows(b, a);
    AtLeastBothWays(RawLetter(a), RawLetter(b));
  }

  lemma AtLeastBothWays(a: Letter, b: Letter)
    requires AtLeast(a, b) && AtLeast(b, a)
    ensures a == b
  {
  }

  // ---- One row ----

  lemma HighIdOf(r: Row, id: string)
    ensures id in RowHighIds(r) <==>
      exists f :: f in r.findings && f.id == id && ScoreFinding(f, r).tier == TierCalled && HighOrCritical(SeverityOf(f.severity))
  {
    if id in RowHighIds(r) {
      var x :| x in CalledOf(r) && HighOrCritical(x.sev) && x.finding.id == id;
      ScoredFromFinding(r, x);
    }
    if f :| f in r.findings && f.id == id && ScoreFinding(f, r).tier == TierCalled && HighOrCritical(SeverityOf(f.severity)) {
      FindingInItsTier(r, f);
      assert ScoreFinding(f, r) in CalledOf(r);
    }
  }

  lemma MuteHigh(r: Row, f: Finding, g: Finding)
    requires Mute(f, g) && ScoreFinding(f, r).tier == TierCalled && HighOrCritical(SeverityOf(f.severity))
    ensures g.id == f.id && ScoreFinding(g, r).tier == TierCalled && HighOrCritical(SeverityOf(g.severity))
  {
  }

  lemma MuteHighIds(a: Row, b: Row)
    requires RowRel(a, b, Mute)
    ensures RowHighIds(a) <= RowHighIds(b)
  {
    hide Mute, RowHighIds;
    forall id | id in RowHighIds(a) ensures id in RowHighIds(b) {
      HighIdOf(a, id);
      var f :| f in a.findings && f.id == id && ScoreFinding(f, a).tier == TierCalled && HighOrCritical(SeverityOf(f.severity));
      var j :| 0 <= j < |a.findings| && a.findings[j] == f;
      var g := b.findings[j];
      MuteHigh(a, f, g);
      assert g in b.findings && ScoreFinding(g, b) == ScoreFinding(g, a);
      HighIdOf(b, id);
    }
  }

  lemma MuteSomeAlone(a: Row, b: Row, l: Letter)
    requires RowRel(a, b, Mute) && SomeAlone(a, l)
    ensures SomeAlone(b, l)
  {
    var f :| f in a.findings && AtLeast(Alone(a, f), l);
    var j :| 0 <= j < |a.findings| && a.findings[j] == f;
    MuteDominates(a, f, b.findings[j]);
    FlagsOnly(a, b, b.findings[j]);
    assert b.findings[j] in b.findings;
  }

  lemma MuteRowBelow(a: Row, b: Row)
    requires RowRel(a, b, Mute)
    ensures AtLeast(BandOf(RowScore(b)), BandOf(RowScore(a)))
  {
    var l := BandOf(RowScore(a));
    RowAtLeast(a, l);
    RowAtLeast(b, l);
    MuteHighIds(a, b);
    SubsetCount(RowHighIds(a), RowHighIds(b));
    if SomeAlone(a, l) { MuteSomeAlone(a, b, l); }
    assert RowUpkeep(a) == RowUpkeep(b);
    hide RowScore, RowHighIds, SomeAlone, RowUpkeep;
  }

  lemma MuteRowBand(a: Row, b: Row)
    requires RowRel(a, b, Mute)
    ensures BandOf(RowScore(a)) == BandOf(RowScore(b))
  {
    hide *;
    MuteRowSymmetric(a, b);
    MuteRowBelow(a, b);
    MuteRowBelow(b, a);
    AtLeastBothWays(BandOf(RowScore(a)), BandOf(RowScore(b)));
  }

  lemma MuteUnread(d: Row, e: Row, s: int, t: int)
    requires RowRel(d, e, Mute) && BandOf(s) == BandOf(t)
    ensures UnreadMatters(d, s) == UnreadMatters(e, t)
  {
    MuteRowBand(AsArchived(d), AsArchived(e));
    hide RowScore, BandOf;
  }

  lemma {:induction false} MuteUnreadNames(ds: seq<Row>, es: seq<Row>, s: int, t: int)
    requires |ds| == |es| && BandOf(s) == BandOf(t)
    requires forall i :: 0 <= i < |ds| ==> RowRel(ds[i], es[i], Mute)
    ensures UnreadNames(ds, s) == UnreadNames(es, t)
  {
    if ds != [] {
      var n := |ds| - 1;
      MuteUnreadNames(ds[..n], es[..n], s, t);
      assert RowRel(ds[n], es[n], Mute);
      MuteUnread(ds[n], es[n], s, t);
      hide UnreadMatters;
    }
  }

  // ---- The whole grade ----

  /** The parts of a result a caller decides on. */
  predicate SameVerdict(a: Result, b: Result) {
    a.letter == b.letter && a.pending == b.pending && a.archivedUnread == b.archivedUnread && a.estimated == b.estimated
  }

  lemma MuteSameVerdict(a: Input, b: Input)
    requires InputRel(a, b, Mute)
    ensures SameVerdict(GradeMerged(a), GradeMerged(b))
  {
    MuteSameLetter(a, b);
    PendingIgnoresFindings(a, b, Mute, LetterScore(a), LetterScore(b));
    MuteUnreadNames(a.deps, b.deps, LetterScore(a), LetterScore(b));
    hide LetterScore, PendingOf, UnreadNames, RowOrder, RaisingRule, DecidingOf;
  }

  lemma MuteMapped(a: Input, b: Input, g: Finding -> Finding)
    requires InputRel(a, b, Mute)
    requires forall f, h :: Mute(f, h) ==> Mute(g(f), g(h))
    ensures InputRel(MapInput(a, g), MapInput(b, g), Mute)
  {
    MuteMappedRow(a.self, b.self, g);
    forall i | 0 <= i < |a.deps| ensures RowRel(MapInput(a, g).deps[i], MapInput(b, g).deps[i], Mute) {
      MuteMappedRow(a.deps[i], b.deps[i], g);
    }
  }

  lemma MuteMappedRow(a: Row, b: Row, g: Finding -> Finding)
    requires RowRel(a, b, Mute)
    requires forall f, h :: Mute(f, h) ==> Mute(g(f), g(h))
    ensures RowRel(MapRow(a, g), MapRow(b, g), Mute)
  {
    forall j | 0 <= j < |a.findings| ensures Mute(MapRow(a, g).findings[j], MapRow(b, g).findings[j]) {
      assert Mute(a.findings[j], b.findings[j]);
    }
  }

  lemma MuteSubstituted(sev: Severity)
    ensures forall f, h :: Mute(f, h) ==> Mute(FailedAs(sev)(f), FailedAs(sev)(h))
    ensures forall f, h :: Mute(f, h) ==> Mute(EstimatedAs(sev)(f), EstimatedAs(sev)(h))
    ensures forall f :: SameAdvisory(f, FailedAs(sev)(f)) && SameAdvisory(f, EstimatedAs(sev)(f))
  {
  }

  lemma MuteSameFlags(a: Input, b: Input)
    requires InputRel(a, b, Mute)
    ensures HasFailed(a) ==> HasFailed(b)
    ensures HasEstimated(a) ==> HasEstimated(b)
  {
    if r, f :| r in RowsOf(a) && f in r.findings && f.lookupFailed { var s, g := MuteTwin(a, b, r, f); }
    if r, f :| r in RowsOf(a) && f in r.findings && f.severity == Unrated { var s, g := MuteTwin(a, b, r, f); }
  }

  lemma MuteTwin(a: Input, b: Input, r: Row, f: Finding) returns (s: Row, g: Finding)
    requires InputRel(a, b, Mute) && r in RowsOf(a) && f in r.findings
    ensures s in RowsOf(b) && g in s.findings && Mute(f, g)
  {
    RowsRelated(a, b, Mute);
    var i :| 0 <= i < |RowsOf(a)| && RowsOf(a)[i] == r;
    var j :| 0 <= j < |r.findings| && r.findings[j] == f;
    s := RowsOf(b)[i];
    g := s.findings[j];
  }

  lemma MuteSubstitutedLetter(a: Input, b: Input, g: Finding -> Finding)
    requires Clean(a) && Clean(b) && InputRel(a, b, Mute)
    requires forall f, h :: Mute(f, h) ==> Mute(g(f), g(h))
    requires forall f :: SameAdvisory(f, g(f))
    ensures GradeOnceOf(MapInput(a, g)).letter == GradeOnceOf(MapInput(b, g)).letter
  {
    MappedClean(a, g);
    MappedClean(b, g);
    MuteMapped(a, b, g);
    MuteSameVerdict(MapInput(a, g), MapInput(b, g));
    hide GradeMerged, GradeOnceOf, MapInput;
  }

  lemma MuteSameAlternatives(a: Input, b: Input, letter: Option<Letter>)
    requires Clean(a) && Clean(b) && InputRel(a, b, Mute)
    ensures LookupMatters(a, letter) == LookupMatters(b, letter)
    ensures EstimateMatters(a, letter) == EstimateMatters(b, letter)
  {
    hide GradeOnceOf, MapInput, HasFailed, HasEstimated, Mute, InputRel, Clean, FailedAs, EstimatedAs, SameAdvisory;
    MuteSymmetric(a, b);
    MuteSameFlags(a, b);
    MuteSameFlags(b, a);
    MuteSubstituted(Low);
    MuteSubstituted(Critical);
    MuteSubstitutedLetter(a, b, FailedAs(Low));
    MuteSubstitutedLetter(a, b, FailedAs(Critical));
    MuteSubstitutedLetter(a, b, EstimatedAs(Low));
    MuteSubstitutedLetter(a, b, EstimatedAs(Critical));
  }

  lemma MuteSameGrade(a: Input, b: Input)
    requires InputRel(MergedInput(a), MergedInput(b), Mute)
    ensures SameVerdict(GradeOf(a), GradeOf(b))
  {
    FirstRun(a);
    FirstRun(b);
    MergedIsClean(a);
    MergedIsClean(b);
    MuteSameVerdict(MergedInput(a), MergedInput(b));
    MuteSameAlternatives(MergedInput(a), MergedInput(b), GradeOnceOf(a).letter);
    hide GradeMerged, GradeOnceOf, MergedInput, LookupMatters, EstimateMatters;
  }

  /** The runner marks a lookup as failed only on a finding it left without a severity. */
  ghost predicate FailedAreUnrated(input: Input) {
    forall r, f :: r in RowsOf(input) && f in r.findings && f.lookupFailed ==> f.severity == Unrated
  }

  lemma MergedFailedAreUnrated(a: Input, i: int)
    requires FailedAreUnrated(a) && 0 <= i < |a.deps|
    ensures forall f :: f in MergedInput(a).deps[i].findings && f.lookupFailed ==> f.severity == Unrated
  {
    var fs := a.deps[i].findings;
    assert RowsOf(a)[i + 1] == a.deps[i] && a.deps[i] in RowsOf(a);
    forall k | 0 <= k < |Merged(fs)| ensures Merged(fs)[k].lookupFailed ==> Merged(fs)[k].severity == Unrated {
      hide Merged;
      LookupFailureOnlyUnrated(fs, k);
    }
  }

  /** When everything imported is quiet once merged, then whatever the called pass would find, Grade gives the same letter, the
      same star, the same pending check and the same list of unread archived flags. */
  lemma QuietMergedStays(a: Input, b: Input)
    requires Promoted(a, b) && FailedAreUnrated(a) && QuietMerged(a)
    ensures SameVerdict(GradeOf(a), GradeOf(b))
  {
    var m, n := MergedInput(a), MergedInput(b);
    PromotedMerged(a, b);
    MergedLengths(a);
    hide MergedInput, Promoted, FailedAreUnrated, Lifts, Mute, GradeOf;
    forall i | 0 <= i < |m.deps| ensures RowRel(m.deps[i], n.deps[i], Mute) {
      MergedFailedAreUnrated(a, i);
      forall j | 0 <= j < |m.deps[i].findings| ensures Mute(m.deps[i].findings[j], n.deps[i].findings[j]) {
        assert m.deps[i].findings[j] in m.deps[i].findings;
        QuietLift(m.deps[i].findings[j], n.deps[i].findings[j]);
      }
    }
    MuteItself(m.self);
    MuteSameGrade(a, b);
  }

  lemma MergedLengths(a: Input)
    ensures |MergedInput(a).deps| == |a.deps|
  {
  }

  lemma QuietLift(f: Finding, g: Finding)
    requires Lifts(f, g) && (f.lookupFailed ==> f.severity == Unrated)
    requires f.reach == Imported ==> !Loud(f.severity, f.exploited)
    ensures Mute(f, g)
  {
  }

  lemma MuteItself(r: Row)
    ensures RowRel(r, r, Mute)
  {
  }

  // ---- What the test's false answer means for the merged findings ----

  lemma QuietScanned(scan: map<string, seq<Vuln>>, r: Row, f: Finding)
    requires !Needed(scan) && FromScan(r, scan) && f in r.findings && f.reach == Imported
    ensures !Loud(f.severity, f.exploited)
  {
    assert !SomeLoud(scan[r.module_]);
  }

  lemma LoudTop(c: set<Finding>, f: Finding)
    requires f in c && f.severity != Unrated
    ensures Loud(TopSeverity(c), HasExploited(c)) <==> exists g :: g in c && (g.exploited || HighOrCritical(g.severity))
  {
    assert HasSeverity(c, f.severity);
    if HasSeverity(c, High) { var g :| g in c && g.severity == High; }
    if HasSeverity(c, Critical) { var g :| g in c && g.severity == Critical; }
    if HasExploited(c) { var g :| g in c && g.exploited; }
    if g :| g in c && (g.exploited || HighOrCritical(g.severity)) { assert HasSeverity(c, g.severity); }
  }

  lemma QuietGroup(scan: map<string, seq<Vuln>>, r: Row, i: int)
    requires !Needed(scan) && FromScan(r, scan) && 0 <= i < |r.findings|
    ensures var m, c := GroupValue(r.findings, i), Class(r.findings, i);
      m.reach == Imported && Loud(m.severity, m.exploited) <==>
        TopReach(c) == Imported && exists g :: g in c && (g.exploited || HighOrCritical(g.severity))
  {
    hide GroupValue, Class, TopSeverity, HasExploited, FromScan, Needed;
    var fs, c := r.findings, Class(r.findings, i);
    GroupIsTop(fs, i);
    if TopReach(c) == Imported {
      var f :| f in c && f.reach == Imported;
      assert f in fs by { ClassMember(fs, i, f); }
      QuietScanned(scan, r, f);
      LoudTop(c, f);
    }
  }

  lemma ClassMember(fs: seq<Finding>, i: int, f: Finding)
    requires f in Class(fs, i)
    ensures f in fs
  {
  }

  lemma MergedRowQuiet(scan: map<string, seq<Vuln>>, d: Row)
    requires !Needed(scan) && FromScan(d, scan)
    ensures QuietAliases(d) <==> forall f :: f in MergedRow(d).findings && f.reach == Imported ==> !Loud(f.severity, f.exploited)
  {
    hide Needed, FromScan, Class, TopReach, GroupValue, Loud, HighOrCritical, Merged;
    var fs := d.findings;
    forall i | 0 <= i < |fs| ensures GroupValue(fs, i) in Merged(fs) { var k := EveryFindingCovered(fs, i); }
    forall f | f in Merged(fs) ensures exists i :: 0 <= i < |fs| && f == GroupValue(fs, i) { OutputIsGroup(fs, f); }
    forall i | 0 <= i < |fs|
      ensures var m, c := GroupValue(fs, i), Class(fs, i);
        m.reach == Imported && Loud(m.severity, m.exploited) <==>
          TopReach(c) == Imported && exists g :: g in c && (g.exploited || HighOrCritical(g.severity))
    {
      QuietGroup(scan, d, i);
    }
  }

  lemma OutputIsGroup(fs: seq<Finding>, f: Finding)
    requires f in Merged(fs)
    ensures exists i :: 0 <= i < |fs| && f == GroupValue(fs, i)
  {
    var l := LeadersUpTo(fs, |fs|);
    var k :| 0 <= k < |Merged(fs)| && Merged(fs)[k] == f;
    assert l[k] in l;
  }

  /** After a false answer the merged imported findings are quiet if and only if the aliases are. */
  lemma QuietMergedMeans(scan: map<string, seq<Vuln>>, a: Input)
    requires !Needed(scan) && forall d :: d in a.deps ==> FromScan(d, scan)
    ensures QuietMerged(a) <==> forall d :: d in a.deps ==> QuietAliases(d)
  {
    hide Needed, FromScan, QuietAliases, Merged, Loud;
    forall d | d in a.deps ensures MergedRow(d) in MergedInput(a).deps {
      var i :| 0 <= i < |a.deps| && a.deps[i] == d;
      assert MergedInput(a).deps[i] == MergedRow(d);
    }
    forall d | d in a.deps
      ensures QuietAliases(d) <==> forall f :: f in MergedRow(d).findings && f.reach == Imported ==> !Loud(f.severity, f.exploited)
    {
      MergedRowQuiet(scan, d);
    }
    hide MergedRow;
  }

  /** If the test answers false and the aliases are quiet, skipping the called pass changes nothing. */
  lemma SkippingChangesNothing(scan: map<string, seq<Vuln>>, a: Input, b: Input)
    requires !Needed(scan) && Promoted(a, b)
    requires forall d :: d in a.deps ==> FromScan(d, scan) && QuietAliases(d)
    requires FailedAreUnrated(a)
    ensures SameVerdict(GradeOf(a), GradeOf(b))
  {
    QuietMergedMeans(scan, a);
    QuietMergedStays(a, b);
  }

  // ---- The other direction ----

  function ScanRows(scan: map<string, seq<Vuln>>, modules: seq<string>, reach: Reach): (rows: seq<Row>)
    requires forall m :: m in modules ==> m in scan
    ensures |rows| == |modules|
    ensures forall i :: 0 <= i < |modules| ==> rows[i] == ScanRow(modules[i], scan[modules[i]], Unknown, reach)
  {
    seq(|modules|, i requires 0 <= i < |modules| => assert modules[i] in modules; ScanRow(modules[i], scan[modules[i]], Unknown, reach))
  }

  lemma {:induction false} ScanFindingsAlign(vs: seq<Vuln>)
    ensures |ScanFindings(vs, Imported)| == |ScanFindings(vs, Called)|
    ensures forall j :: 0 <= j < |ScanFindings(vs, Imported)| ==>
      ScanFindings(vs, Called)[j] == ScanFindings(vs, Imported)[j].(reach := Called) && ScanFindings(vs, Imported)[j].reach == Imported
  {
    if vs != [] { ScanFindingsAlign(vs[..|vs| - 1]); }
  }

  lemma QuietScanIsMute(scan: map<string, seq<Vuln>>, m: string)
    requires m in scan && !Needed(scan)
    ensures RowRel(ScanRow(m, scan[m], Unknown, Imported), ScanRow(m, scan[m], Unknown, Called), Mute)
  {
    var vs := scan[m];
    ScanFindingsAre(vs, Imported);
    ScanFindingsAlign(vs);
    assert !SomeLoud(vs);
    forall j | 0 <= j < |ScanFindings(vs, Imported)| ensures Mute(ScanFindings(vs, Imported)[j], ScanFindings(vs, Called)[j]) {
      assert ScanFindings(vs, Imported)[j] in ScanFindings(vs, Imported);
    }
  }

  lemma ImportedScanFacts(rows: seq<Row>)
    requires forall r, f :: r in rows && f in r.findings ==> f.reach == Imported
    requires forall r :: r in rows ==> !r.isSelf
    ensures var m := ScanInput(rows);
      CalledKeys(RowsOf(m)) == {} && !SomeCritical(m) && !SomeExploited(m) && !SomeCalledHigh(m)
  {
    var m := ScanInput(rows);
    assert forall r :: r in RowsOf(m) ==> r == m.self || r in rows;
  }

  lemma ImportedScanNotF(rows: seq<Row>)
    requires forall r, f :: r in rows && f in r.findings ==> f.reach == Imported
    requires forall r :: r in rows ==> !r.isSelf
    ensures RawLetter(ScanInput(rows)) != LetterF
    ensures RawLetter(ScanInput(rows)) == LetterD <==> |ReachedKeys(RowsOf(ScanInput(rows)))| >= TREE_IMPORTED_OR_CALLED
  {
    hide RawLetter, CalledKeys, ReachedKeys, SomeCritical, SomeExploited, SomeCalledHigh, RowsOf;
    ImportedScanFacts(rows);
    ExactlyF(ScanInput(rows));
    ExactlyD(ScanInput(rows));
  }

  lemma CalledKeysMatch(scan: map<string, seq<Vuln>>, modules: seq<string>)
    requires forall m :: m in modules ==> m in scan
    ensures ReachedKeys(RowsOf(ScanInput(ScanRows(scan, modules, Imported)))) <= CalledKeys(RowsOf(ScanInput(ScanRows(scan, modules, Called))))
  {
    var a, b := ScanInput(ScanRows(scan, modules, Imported)), ScanInput(ScanRows(scan, modules, Called));
    forall k | k in ReachedKeys(RowsOf(a)) ensures k in CalledKeys(RowsOf(b)) {
      var r, f :| r in RowsOf(a) && f in r.findings && CountsReached(r, f) && k == Key(r.module_, f.id);
      assert r in a.deps;
      var i :| 0 <= i < |a.deps| && a.deps[i] == r;
      var j :| 0 <= j < |r.findings| && r.findings[j] == f;
      CalledTwin(scan, modules, i, j);
    }
  }

  lemma CalledTwin(scan: map<string, seq<Vuln>>, modules: seq<string>, i: int, j: int)
    requires forall m :: m in modules ==> m in scan
    requires 0 <= i < |modules| && 0 <= j < |ScanRows(scan, modules, Imported)[i].findings|
    ensures var r, b := ScanRows(scan, modules, Imported)[i], ScanInput(ScanRows(scan, modules, Called));
      CountsReached(r, r.findings[j]) ==> Key(r.module_, r.findings[j].id) in CalledKeys(RowsOf(b))
  {
    var r, s := ScanRows(scan, modules, Imported)[i], ScanRows(scan, modules, Called)[i];
    assert modules[i] in modules;
    ScanFindingsAlign(scan[modules[i]]);
    var b := ScanInput(ScanRows(scan, modules, Called));
    assert RowsOf(b)[i + 1] == s;
    assert s in RowsOf(b) && s.findings[j] in s.findings;
    assert CountsReached(r, r.findings[j]) ==> CountsCalled(s, s.findings[j]);
  }

  lemma LoudCalledRowIn(r: Row, input: Input, f: Finding)
    requires r in input.deps && f in r.findings && f.reach == Called && !r.isSelf && r.testOnly == Unknown && r.inBuild == Unknown
    requires f.exploited || HighOrCritical(f.severity)
    ensures SomeExploited(input) || SomeCalledHigh(input)
  {
    var i :| 0 <= i < |input.deps| && input.deps[i] == r;
    assert RowsOf(input)[i + 1] == r;
    assert r in RowsOf(input);
    assert CountsExploited(r, f) || CountsCalled(r, f);
  }

  lemma LoudCalledLetter(scan: map<string, seq<Vuln>>, modules: seq<string>)
    requires forall m :: m in modules <==> m in scan
    requires (forall m :: m in scan ==> AllRated(scan[m])) && Needed(scan)
    ensures var b := ScanInput(ScanRows(scan, modules, Called)); SomeExploited(b) || SomeCalledHigh(b)
  {
    var m :| m in scan && SomeLoud(scan[m]);
    var v :| v in scan[m] && v.reach == Imported && Loud(v.severity, v.inKEV);
    assert AllRated(scan[m]) && m in modules;
    var i :| 0 <= i < |modules| && modules[i] == m;
    ScanFindingsAre(scan[m], Called);
    hide SomeExploited, SomeCalledHigh;
    LoudCalledRowIn(ScanRows(scan, modules, Called)[i], ScanInput(ScanRows(scan, modules, Called)), AsFinding(v, Called));
  }

  lemma ScanRowsImported(scan: map<string, seq<Vuln>>, modules: seq<string>)
    requires forall m :: m in modules ==> m in scan
    ensures forall r, g :: r in ScanRows(scan, modules, Imported) && g in r.findings ==> g.reach == Imported
    ensures forall r :: r in ScanRows(scan, modules, Imported) ==> !r.isSelf
  {
    var a := ScanRows(scan, modules, Imported);
    forall r, g | r in a && g in r.findings ensures g.reach == Imported {
      var k :| 0 <= k < |a| && a[k] == r;
      assert modules[k] in modules;
      ScanFindingsAre(scan[modules[k]], Imported);
    }
  }

  /** One loud finding: called, the scan's rows are at least D, and F when imported alone they were D already. */
  lemma LoudScanDiffers(scan: map<string, seq<Vuln>>, modules: seq<string>)
    requires forall m :: m in modules <==> m in scan
    requires (forall m :: m in scan ==> AllRated(scan[m])) && Needed(scan)
    ensures RawLetter(ScanInput(ScanRows(scan, modules, Imported))) != RawLetter(ScanInput(ScanRows(scan, modules, Called)))
  {
    hide RawLetter, CalledKeys, ReachedKeys, ScanRows, ScanInput, RowsOf, SomeExploited, SomeCalledHigh, SomeCritical, Needed, AllRated;
    var a, b := ScanInput(ScanRows(scan, modules, Imported)), ScanInput(ScanRows(scan, modules, Called));
    LoudCalledLetter(scan, modules);
    ScanRowsImported(scan, modules);
    ImportedScanNotF(ScanRows(scan, modules, Imported));
    CalledKeysMatch(scan, modules);
    SubsetCount(ReachedKeys(RowsOf(a)), CalledKeys(RowsOf(b)));
    ExactlyF(b);
    ExactlyD(b);
  }

  /** With every imported severity known the test is exact: it asks for the called pass if and only if the scan's own rows get
      another letter when their imported findings are called. */
  lemma TestIsExactOnTheScan(scan: map<string, seq<Vuln>>, modules: seq<string>)
    requires forall m :: m in modules <==> m in scan
    requires forall m :: m in scan ==> AllRated(scan[m])
    ensures Needed(scan) <==>
      RawLetter(ScanInput(ScanRows(scan, modules, Imported))) != RawLetter(ScanInput(ScanRows(scan, modules, Called)))
  {
    if Needed(scan) {
      LoudScanDiffers(scan, modules);
    } else {
      var a, b := ScanInput(ScanRows(scan, modules, Imported)), ScanInput(ScanRows(scan, modules, Called));
      forall i | 0 <= i < |modules| ensures RowRel(a.deps[i], b.deps[i], Mute) {
        assert modules[i] in modules;
        QuietScanIsMute(scan, modules[i]);
      }
      assert RowRel(a.self, b.self, Mute);
      MuteSameLetter(a, b);
    }
  }

  // ---- Why the aliases must be quiet ----

  const GO_ALIAS := Finding("GO-1", ["CVE-1"], Low, Imported, false, false)
  const GHSA_ALIAS := Finding("GHSA-1", ["CVE-1"], High, Required, false, false)

  function AliasedInput(first: Finding): Input {
    ScanInput([Row("m", false, true, Unknown, Unknown, [first, GHSA_ALIAS], NO_UPKEEP)])
  }

  lemma AliasShared(f: Finding)
    requires f.aliases == ["CVE-1"]
    ensures Shares(f, GHSA_ALIAS)
  {
    assert "CVE-1" in f.aliases && "CVE-1" in GHSA_ALIAS.aliases;
    assert "CVE-1" in Ids(f) * Ids(GHSA_ALIAS);
  }

  lemma PairTop(f: Finding, g: Finding)
    requires f.severity == Low && g.severity == High && g.reach == Required && !f.exploited && !g.exploited
    requires f.reach == Called || f.reach == Imported
    ensures MergeMany({f, g}).severity == High && MergeMany({f, g}).reach == f.reach
    ensures !MergeMany({f, g}).exploited && !MergeMany({f, g}).lookupFailed
  {
    var s := {f, g};
    assert f in s && g in s;
    assert HasSeverity(s, High) && !HasSeverity(s, Critical);
    assert HasReach(s, f.reach) && !HasReach(s, Undetermined) && (HasReach(s, Called) ==> f.reach == Called);
    assert !HasExploited(s);
  }

  function OneFinding(h: Finding): Row { Row("m", false, true, Unknown, Unknown, [h], NO_UPKEEP) }

  lemma OneFindingFacts(h: Finding)
    requires h.severity == High && !h.exploited && (h.reach == Called || h.reach == Imported)
    ensures var m := ScanInput([OneFinding(h)]);
      && |CalledKeys(RowsOf(m))| <= 1 && |ReachedKeys(RowsOf(m))| <= 1
      && !SomeCritical(m) && !SomeExploited(m) && (SomeCalledHigh(m) <==> h.reach == Called)
  {
    var m := ScanInput([OneFinding(h)]);
    assert RowsOf(m) == [m.self, OneFinding(h)];
    assert CalledKeys(RowsOf(m)) <= {Key("m", h.id)} && ReachedKeys(RowsOf(m)) <= {Key("m", h.id)};
    SubsetCount(CalledKeys(RowsOf(m)), {Key("m", h.id)});
    SubsetCount(ReachedKeys(RowsOf(m)), {Key("m", h.id)});
    assert RowsOf(m)[1] == OneFinding(h) && h in OneFinding(h).findings;
    assert h.reach == Called ==> CountsCalled(OneFinding(h), h);
  }

  /** One dependency with one high finding: D when it is called, better when it is imported. */
  lemma OneHighFinding(h: Finding)
    requires h.severity == High && !h.exploited && (h.reach == Called || h.reach == Imported)
    ensures RawLetter(ScanInput([OneFinding(h)])) == LetterD <==> h.reach == Called
  {
    hide RawLetter, CalledKeys, ReachedKeys, SomeCritical, SomeExploited, SomeCalledHigh, OneFinding;
    OneFindingFacts(h);
    ExactlyD(ScanInput([OneFinding(h)]));
  }

  lemma AliasedMergedInput(f: Finding)
    requires f.aliases == ["CVE-1"]
    ensures MergedInput(AliasedInput(f)) ==
      ScanInput([OneFinding(MergeMany({f, GHSA_ALIAS}))])
  {
    AliasShared(f);
    MergedPair(f, GHSA_ALIAS);
    MergedShort([]);
    var m := MergedInput(AliasedInput(f));
    assert m.deps == [MergedRow(AliasedInput(f).deps[0])];
  }

  lemma NothingWithheld(r: Row)
    requires !r.upkeep.missing
    ensures GradeMerged(ScanInput([r])).letter == Some(RawLetter(ScanInput([r])))
  {
    VerdictOf(ScanInput([r]));
    hide LetterScore, RowOrder, RaisingRule;
  }

  lemma NoFailedLookups(a: Input)
    requires !HasFailed(MergedInput(a))
    ensures GradeOf(a).letter == GradeOnceOf(a).letter
  {
    FirstRun(a);
    hide GradeOnceOf, EstimateMatters, MergedInput, HasFailed;
  }

  lemma AliasedLetter(f: Finding)
    requires f == GO_ALIAS || f == GO_ALIAS.(reach := Called)
    ensures GradeOf(AliasedInput(f)).letter == Some(LetterD) <==> f.reach == Called
  {
    var h := MergeMany({f, GHSA_ALIAS});
    AliasedMergedInput(f);
    PairTop(f, GHSA_ALIAS);
    assert !HasFailed(ScanInput([OneFinding(h)]));
    OneHighFinding(h);
    NothingWithheld(OneFinding(h));
    hide MergeMany, GradeMerged, MergedInput, RawLetter, GradeOf;
    NoFailedLookups(AliasedInput(f));
  }

  const ALIASED_SCAN := map["m" := [Vuln("GO-1", Low, Imported, false), Vuln("GHSA-1", High, Required, false)]]

  lemma AliasedFromScan()
    ensures !Needed(ALIASED_SCAN) && Promoted(AliasedInput(GO_ALIAS), AliasedInput(GO_ALIAS.(reach := Called)))
    ensures forall d :: d in AliasedInput(GO_ALIAS).deps ==> FromScan(d, ALIASED_SCAN)
    ensures FailedAreUnrated(AliasedInput(GO_ALIAS))
  {
    var a, b := AliasedInput(GO_ALIAS), AliasedInput(GO_ALIAS.(reach := Called));
    assert RowRel(a.deps[0], b.deps[0], Promotes);
    assert ALIASED_SCAN["m"][0] in ALIASED_SCAN["m"];
  }

  /** The test drops aliases, so it is not safe when an imported finding is an alias of another one: here it answers false on
      a LOW imported advisory whose GitHub alias, reported as required, is HIGH, and Grade turns to a D once it is called. */
  lemma AliasedImportBreaksThePromise()
    ensures !Needed(ALIASED_SCAN) && Promoted(AliasedInput(GO_ALIAS), AliasedInput(GO_ALIAS.(reach := Called)))
    ensures forall d :: d in AliasedInput(GO_ALIAS).deps ==> FromScan(d, ALIASED_SCAN) && !QuietAliases(d)
    ensures GradeOf(AliasedInput(GO_ALIAS)).letter != GradeOf(AliasedInput(GO_ALIAS.(reach := Called))).letter
  {
    hide GradeOf, QuietAliases, FailedAreUnrated, Needed, FromScan, Promoted;
    AliasedFromScan();
    AliasedLetter(GO_ALIAS);
    AliasedLetter(GO_ALIAS.(reach := Called));
    if forall d :: d in AliasedInput(GO_ALIAS).deps ==> QuietAliases(d) {
      SkippingChangesNothing(ALIASED_SCAN, AliasedInput(GO_ALIAS), AliasedInput(GO_ALIAS.(reach := Called)));
      assert false;
    }
  }
}
