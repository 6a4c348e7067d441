/** What a grade says about itself: the order of its rows, the row or rule that decides, and the numbers (pkg/grade/engine.go). */
module Deciding {
  import opened GradeTypes
  import opened Ordering
  import opened Scoring
  import opened Tree
  import opened PendingRule
  import opened Engine
  import opened Evidence
  import opened Letters
  import opened Relations
  import opened OrderIndependence

  // ---- The rows, worst first ----

  /** No row is listed after one that it should precede. */
  ghost predicate InOrder(s: seq<RowResult>) { forall i, j :: 0 <= i < j < |s| ==> !RowBefore(s[j], s[i]) }

  lemma {:induction false} InsertInOrder(x: RowResult, s: seq<RowResult>)
    requires InOrder(s)
    ensures InOrder(InsertRow(x, s)) && forall y :: y in InsertRow(x, s) <==> y == x || y in s
  {
    hide RowBefore;
    if s != [] {
      assert s == [s[0]] + s[1..];
      if RowBefore(x, s[0]) {
        forall j | 0 <= j < |s| ensures !RowBefore(s[j], x) {
          if RowBefore(s[j], x) {
            RowBeforeTransitive(s[j], x, s[0]);
            RowBeforeIrreflexive(s[0]);
            assert false;
          }
        }
      } else {
        InsertInOrder(x, s[1..]);
        HeadStaysFirst(x, s);
      }
    }
  }

  lemma {:induction false} HeadStaysFirst(x: RowResult, s: seq<RowResult>)
    requires s != [] && InOrder(s) && !RowBefore(x, s[0]) && forall y :: y in InsertRow(x, s[1..]) <==> y == x || y in s[1..]
    ensures forall j :: 0 <= j < |InsertRow(x, s[1..])| ==> !RowBefore(InsertRow(x, s[1..])[j], s[0])
  {
    hide RowBefore, InsertRow;
    var r := InsertRow(x, s[1..]);
    forall j | 0 <= j < |r| ensures !RowBefore(r[j], s[0]) {
      assert r[j] in r;
      if r[j] != x {
        var k :| 0 <= k < |s[1..]| && s[1..][k] == r[j];
        assert s[k + 1] == r[j];
      }
    }
  }

  lemma {:induction false} SortInOrder(s: seq<RowResult>)
    ensures InOrder(SortRows(s)) && forall y :: y in SortRows(s) <==> y in s
  {
    if s != [] {
      var n := |s| - 1;
      SortInOrder(s[..n]);
      InsertInOrder(s[n], SortRows(s[..n]));
      assert forall y :: y in s <==> y in s[..n] || y == s[n];
    }
  }

  /** a is named before b: it scores worse; or as badly, and a vulnerability beats upkeep, then a known severity an estimate,
      then the module itself a dependency, then a direct one an indirect one, then the names decide. */
  predicate Precedes(a: RowResult, b: RowResult) {
    var va, vb := a.vulnScore > 0 && a.vulnScore >= a.upkeepScore, b.vulnScore > 0 && b.vulnScore >= b.upkeepScore;
    || a.score > b.score
    || (a.score == b.score && va && !vb)
    || (a.score == b.score && va == vb && !a.estimated && b.estimated)
    || (a.score == b.score && va == vb && a.estimated == b.estimated && a.isSelf && !b.isSelf)
    || (a.score == b.score && va == vb && a.estimated == b.estimated && a.isSelf == b.isSelf && a.direct && !b.direct)
    || (a.score == b.score && va == vb && a.estimated == b.estimated && a.isSelf == b.isSelf && a.direct == b.direct
        && Less(a.module_, b.module_))
  }

  lemma PrecedesIs(a: RowResult, b: RowResult)
    ensures RowBefore(a, b) <==> Precedes(a, b)
  {
    hide Less;
  }

  /** The rows of a grade are its graded rows, none lost or invented, and none is listed after one that it precedes. */
  lemma RowsInOrder(a: Input)
    ensures var m, rows := MergedInput(a), GradeOf(a).rows;
      && multiset(rows) == multiset(GradeRows(RowsOf(m)))
      && forall i, j :: 0 <= i < j < |rows| ==> !Precedes(rows[j], rows[i])
  {
    FirstRun(a);
    var rows := RowOrder(MergedInput(a));
    SortInOrder(GradeRows(RowsOf(MergedInput(a))));
    RowsAre(a);
    forall i, j | 0 <= i < j < |rows| ensures !Precedes(rows[j], rows[i]) { PrecedesIs(rows[j], rows[i]); }
    hide GradeRows, MergedInput, Precedes, RowBefore, GradeOf;
  }

  lemma RowsAre(a: Input)
    ensures GradeOf(a).rows == RowOrder(MergedInput(a))
  {
    FirstRun(a);
    OnceRows(MergedInput(a));
    hide GradeMerged, GradeOnceOf, MergedInput, RowOrder, LookupMatters, EstimateMatters;
  }

  lemma OnceRows(m: Input)
    ensures GradeMerged(m).rows == RowOrder(m)
  {
    hide RowOrder, LetterScore, PendingOf, UnreadNames, DecidingOf, RaisingRule;
  }

  // ---- The rule that applies ----

  ghost predicate AllNamedIn(m: Input) { forall r, f :: r in RowsOf(m) && f in r.findings ==> f.id != "" }

  lemma {:induction false} MetIdsAre(met: seq<Met>)
    ensures ExploitedIds(met) != [] <==> exists x :: x in met && CountsExploited(x.row, x.finding)
    ensures CriticalIds(met) != [] <==> exists x :: x in met && CountsCritical(x.row, x.finding)
    ensures (forall x :: x in met ==> x.finding.id != "") ==>
      (forall id :: id in ExploitedIds(met) ==> id != "") && forall id :: id in CriticalIds(met) ==> id != ""
  {
    hide CountsExploited, CountsCritical;
    if met != [] {
      MetIdsAre(met[..|met| - 1]);
      assert met == met[..|met| - 1] + [met[|met| - 1]];
    }
  }

  /** Which whole-tree rule is named, when every finding has an ID: the first of the list that holds, the first four for an F
      and the last for a D. */
  lemma TreeRuleIs(m: Input)
    requires AllNamedIn(m)
    ensures TreeRuleOf(m) ==
      if m.checksumMismatch then Some(TreeRow(ChecksumMismatch, 76))
      else if SomeExploited(m) then Some(TreeRow(CalledExploited, 76))
      else if SomeCritical(m) then Some(TreeRow(CalledCritical, 76))
      else if |CalledKeys(RowsOf(m))| >= 3 then Some(TreeRow(CalledFindings, 76))
      else if |ReachedKeys(RowsOf(m))| >= 5 then Some(TreeRow(ImportedAndCalledFindings, 51))
      else None
  {
    var rows := RowsOf(m);
    var met := AllMet(rows, |rows|);
    assert rows[..|rows|] == rows;
    forall x ensures x in met <==> x.row in rows && x.finding in x.row.findings { AllMetIsAll(rows, |rows|, x); }
    assert forall r, f :: r in rows && f in r.findings ==> Met(r, f) in met;
    MetIdsAre(met);
    KeptUnlessLastIsEmpty(ExploitedIds(met));
    KeptUnlessLastIsEmpty(CriticalIds(met));
    hide CountsExploited, CountsCritical, KeepSmallest, ExploitedIds, CriticalIds, AllMet, CalledKeys, ReachedKeys, RowsOf;
    assert SomeExploited(m) <==> exists x :: x in met && CountsExploited(x.row, x.finding);
    assert SomeCritical(m) <==> exists x :: x in met && CountsCritical(x.row, x.finding);
    LastOf(ExploitedIds(met));
    LastOf(CriticalIds(met));
  }

  lemma LastOf(s: seq<string>)
    ensures s != [] ==> s[|s| - 1] in s
  {
  }

  // ---- What decides ----

  /** A given grade's score and what decided it: the whole-tree rule when it beats every row; otherwise the first of the rows,
      when it scores at all; nothing when nothing does. The letter is the score's band. */
  lemma DecidingExactly(a: Input)
    requires GradeOf(a).letter.Some?
    ensures var g, t, first := GradeOf(a), TreeRuleOf(MergedInput(a)), GradeOf(a).rows[0];
      && g.letter == Some(BandOf(g.score))
      && (forall i :: 0 <= i < |g.rows| ==> g.rows[i].score <= first.score)
      && (if t.Some? && t.value.score > first.score then
            g.score == t.value.score && g.deciding == Some(DecidingTree(t.value.rule, t.value.score)) && g.treeRows == [t.value]
          else
            && g.score == first.score && g.treeRows == []
            && g.deciding == if first.score > 0 then Some(DecidingRow(first.module_, first.isSelf, first.score)) else None)
  {
    var m := MergedInput(a);
    RowsAre(a);
    GivenIsFirstRun(a);
    SortInOrder(GradeRows(RowsOf(m)));
    forall i | 0 <= i < |RowOrder(m)| ensures RowOrder(m)[i].score <= RowOrder(m)[0].score {
      PrecedesIs(RowOrder(m)[i], RowOrder(m)[0]);
    }
    FirstRunParts(m);
    hide GradeOf, MergedInput, RowOrder, GradeMerged, TreeRuleOf;
  }

  /** A pending grade shows no letter, no star, no score and nothing that decided; with or without a letter the tree rows hold
      the whole-tree rule exactly when it beats every row. */
  lemma PendingShowsNothing(a: Input)
    ensures var g, t := GradeOf(a), TreeRuleOf(MergedInput(a));
      && (g.pending.Some? <==> g.letter.None?)
      && (g.pending.Some? ==> !g.estimated && g.score == 0 && g.deciding == None)
      && g.treeRows == (if t.Some? && t.value.score > RowOrder(MergedInput(a))[0].score then [t.value] else [])
  {
    FirstRun(a);
    PendingParts(MergedInput(a));
    hide GradeMerged, GradeOnceOf, MergedInput, LookupMatters, EstimateMatters, RowOrder, TreeRuleOf;
  }

  lemma PendingParts(m: Input)
    ensures var res, t := GradeMerged(m), TreeRuleOf(m);
      && (res.pending.Some? <==> res.letter.None?) && !res.estimated
      && (res.pending.Some? ==> res.score == 0 && res.deciding == None)
      && res.treeRows == (if t.Some? && t.value.score > RowOrder(m)[0].score then [t.value] else [])
  {
    hide RowOrder, PendingOf, UnreadNames, TreeRuleOf;
  }

  lemma GivenIsFirstRun(a: Input)
    requires GradeOf(a).letter.Some?
    ensures var g, res := GradeOf(a), GradeMerged(MergedInput(a));
      g.letter == res.letter && g.score == res.score && g.deciding == res.deciding && g.treeRows == res.treeRows && res.pending.None?
  {
    hide *;
    FirstRun(a);
    GradeKeeps(a);
    LetterOrNone(MergedInput(a));
  }

  lemma GradeKeeps(a: Input)
    ensures var g, res := GradeOf(a), GradeOnceOf(MergedInput(a));
      g.letter.Some? ==> g.letter == res.letter && g.score == res.score && g.deciding == res.deciding && g.treeRows == res.treeRows
  {
    hide GradeOnceOf, MergedInput, LookupMatters, EstimateMatters;
  }

  lemma LetterOrNone(m: Input)
    ensures GradeMerged(m).letter.Some? ==> GradeMerged(m).pending.None?
  {
    hide LetterScore, PendingOf, UnreadNames, RowOrder, DecidingOf, RaisingRule;
  }

  lemma FirstRunParts(m: Input)
    requires GradeMerged(m).pending.None?
    ensures var res, t, first := GradeMerged(m), TreeRuleOf(m), RowOrder(m)[0];
      && res.letter == Some(BandOf(res.score))
      && (if t.Some? && t.value.score > first.score then
            res.score == t.value.score && res.deciding == Some(DecidingTree(t.value.rule, t.value.score)) && res.treeRows == [t.value]
          else
            && res.score == first.score && res.treeRows == []
            && res.deciding == if first.score > 0 then Some(DecidingRow(first.module_, first.isSelf, first.score)) else None)
  {
    hide RowOrder, PendingOf, UnreadNames, TreeRuleOf;
  }

  // ---- The numbers ----

  /** What one finding alone scores on a row that is built: the table, the floor for a called exploited one, half of it in a
      confirmed test-only dependency. */
  lemma LoneScores(r: Row, f: Finding)
    requires r.isSelf || r.inBuild != No
    ensures var called := r.isSelf || f.reach == Called || f.reach == Undetermined;
      var table :=
        if called then (match f.severity case Critical => 90 case High => 70 case Medium => 45 case Low => 15 case Unrated => 45)
        else if f.reach == Imported then (match f.severity case Critical => 50 case High => 49 case Medium => 32 case Low => 11 case Unrated => 32)
        else 0;
      var floored := if called && f.exploited && table < 76 then 76 else table;
      AloneScore(r, f) == if r.testOnly == Yes then floored / 2 else floored
  {
  }

  /** In a dependency that is not compiled in nothing scores, and an ended one scores 35, 20 or 10 by the kind of its row. */
  lemma RowScores(r: Row, f: Finding)
    ensures !r.isSelf && r.inBuild == No ==> AloneScore(r, f) == 0
    ensures var ended := r.upkeep.archived || r.upkeep.deprecated || r.upkeep.retracted;
      RowUpkeep(r) == if !ended then 0 else if r.isSelf then 35 else if r.testOnly == Yes || r.inBuild == No then 10 else 20
    ensures RowScore(r) == if RowVuln(r).score > RowUpkeep(r) then Min(RowVuln(r).score, 100) else RowUpkeep(r)
  {
    hide RowVuln;
  }

  /** What a graded row repeats of its row: nothing is mixed up, and unknown is never shown as confirmed or refuted. */
  lemma GradedRowIs(r: Row)
    ensures var g := GradeRow(r);
      && g.module_ == r.module_ && g.isSelf == r.isSelf && g.direct == r.direct
      && (g.testOnly <==> r.testOnly == Yes) && (g.notBuilt <==> r.inBuild == No)
      && (g.upkeepMissed <==> r.upkeep.missing) && (g.archivedUnread <==> r.upkeep.archivedUnread)
      && g.score == RowScore(r) && g.vulnScore == RowVuln(r).score && g.upkeepScore == RowUpkeep(r)
  {
    hide RowVuln, RowScore, RowUpkeep, RowLetter, UpkeepStateOf;
  }

  /** The finding that leads its tier scores as high as any there, and among those that do its ID is the smallest. */
  lemma LeadIs(l: seq<Scored>)
    requires l != []
    ensures Lead(l).Some? && Lead(l).value in l
    ensures forall x :: x in l ==> x.score <= Lead(l).value.score
    ensures forall x :: x in l && x.score == Lead(l).value.score ==> !Less(x.finding.id, Lead(l).value.finding.id)
  {
    LeadIsFirst(l);
    hide Less, Lead;
  }

  /** The upkeep state a row shows. */
  lemma StateIs(u: Upkeep)
    ensures var s, ended := UpkeepStateOf(u), u.archived || u.deprecated || u.retracted;
      && (s == Archived <==> u.archived)
      && (s == Deprecated <==> !u.archived && ended)
      && (s == NotAssessed <==> !ended && u.notAssessed)
      && (s == MissingData <==> !ended && !u.notAssessed && u.missing)
      && (s == Maintained <==> !ended && !u.notAssessed && !u.missing)
  {
  }

  /** A row is marked as estimated only for its vulnerabilities and only by a finding that nobody rated; a row of one finding
      is when that finding is unrated, scores at least what the upkeep does and was not lifted to the floor. */
  lemma EstimatedRow(r: Row)
    ensures GradeRow(r).estimated ==> RowVuln(r).score > 0 && RowVuln(r).score >= RowUpkeep(r) && exists f :: f in r.findings && f.severity == Unrated
    ensures |r.findings| == 1 ==>
      var f := r.findings[0];
      (GradeRow(r).estimated <==>
        (f.severity == Unrated && AloneScore(r, f) > 0 && AloneScore(r, f) >= RowUpkeep(r)
         && !(f.exploited && ScoreFinding(f, r).tier == TierCalled)))
  {
    LeadEstimated(r);
    if |r.findings| == 1 { LoneEstimated(r, r.findings[0]); }
    hide RowVuln, RowUpkeep, RowLetter, AloneScore, ScoreFinding;
  }

  lemma LeadEstimated(r: Row)
    ensures RowVuln(r).estimated ==> exists f :: f in r.findings && f.severity == Unrated
  {
    LeadIsFirst(CalledOf(r));
    LeadIsFirst(ImportedOf(r));
    if RowVuln(r).estimated {
      var top := if CalledPart(r) >= ImportedPart(r) && CalledOf(r) != [] then Lead(CalledOf(r)) else Lead(ImportedOf(r));
      assert top.Some? && top.value.estimated;
      ScoredFromFinding(r, top.value);
    }
  }

  lemma {:induction false} LoneEstimated(r: Row, f: Finding)
    requires r.findings == [f]
    ensures RowVuln(r).score == AloneScore(r, f)
    ensures AloneScore(r, f) > 0 ==>
      (RowVuln(r).estimated <==> f.severity == Unrated && !(f.exploited && ScoreFinding(f, r).tier == TierCalled))
  {
    hide OfTier, Lead, ExploitedOf, HighIds, Further, TierOf;
    AloneIsSingleRow(r, f);
    assert r.(findings := [f]) == r;
    var s := ScoreFinding(f, r);
    assert ScoreAll([f], r) == [s];
    OfTierSingleton(s, TierCalled);
    OfTierSingleton(s, TierImported);
    LeadSingleton(s);
    EmptyLists();
  }

  lemma EmptyLists()
    ensures Lead([]) == None && ExploitedOf([]) == []
  {
  }

  /** Called findings add 5 for each further distinct high or critical advisory, imported ones stop at 50, the row at 100. */
  lemma RowVulnIs(r: Row)
    ensures RowVuln(r).score == Finish(r.testOnly, if CalledPart(r) >= ImportedPart(r) then CalledPart(r) else ImportedPart(r),
                                       exists f :: f in r.findings && f.exploited && ScoreFinding(f, r).tier == TierCalled)
    ensures CalledOf(r) != [] ==>
      && Lead(CalledOf(r)).Some?
      && CalledPart(r) == Lead(CalledOf(r)).value.score + 5 * (if RowHighIds(r) == {} then 0 else |RowHighIds(r)| - 1)
    ensures forall f :: f in r.findings && ScoreFinding(f, r).tier == TierImported ==> ScoreFinding(f, r).score <= ImportedPart(r) <= 50
  {
    RowVulnShape(r);
    ListScoreBounds(CalledOf(r), TierCalled, 0, true);
    ListScoreBounds(ImportedOf(r), TierImported, IMPORTED_CAP, false);
    forall f | f in r.findings ensures ScoreFinding(f, r).tier == TierCalled && f.exploited ==> ExploitedOf(CalledOf(r)) != [] {
      FindingInItsTier(r, f);
    }
    if ExploitedOf(CalledOf(r)) != [] {
      var x := ExploitedOf(CalledOf(r))[0];
      assert x in ExploitedOf(CalledOf(r));
      ScoredFromFinding(r, x);
    }
    forall f | f in r.findings && ScoreFinding(f, r).tier == TierImported ensures ScoreFinding(f, r).score <= ImportedPart(r) <= 50 {
      FindingInItsTier(r, f);
    }
    hide RowVuln, ExploitedOf, OfTier, Lead;
  }
}
