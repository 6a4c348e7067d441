/** What a missing check could still have said: a given letter stands whatever it says, and a withheld one need not. */
module Completions {
  import opened GradeTypes
  import opened Scoring
  import opened Dedupe
  import opened DedupeLaws
  import opened Tree
  import opened PendingRule
  import opened Engine
  import opened Evidence
  import opened Letters
  import opened Relations

  // ---- Upkeep that was not read ----

  /** An unread upkeep, read: nothing known is taken back, anything may have been found. */
  predicate Read(u: Upkeep, v: Upkeep) {
    !v.missing && (ArchivedOrDeprecated(u) ==> ArchivedOrDeprecated(v))
  }

  predicate RowCompleted(a: Row, b: Row) {
    if a.upkeep.missing then b == a.(upkeep := b.upkeep) && Read(a.upkeep, b.upkeep) else b == a
  }

  /** The module's own status is unread when its row says so or when the lookup as a whole failed. */
  predicate SelfCompleted(a: Input, b: Input) {
    if a.self.upkeep.missing || a.checks.selfStatusFailed then
      b.self == a.self.(upkeep := b.self.upkeep) && Read(a.self.upkeep, b.self.upkeep)
    else b.self == a.self
  }

  ghost predicate Completed(a: Input, b: Input) {
    && b == a.(self := b.self, deps := b.deps, checks := a.checks.(selfStatusFailed := false))
    && SelfCompleted(a, b) && |a.deps| == |b.deps|
    && forall i :: 0 <= i < |a.deps| ==> RowCompleted(a.deps[i], b.deps[i])
  }

  /** Only the first row is the module itself. */
  ghost predicate SelfMarked(input: Input) { forall i :: 0 <= i < |input.deps| ==> !input.deps[i].isSelf }

  /** Two inputs with the same findings on rows of the same kind. */
  ghost predicate SameFindings(a: Input, b: Input) {
    && a.checksumMismatch == b.checksumMismatch && |RowsOf(a)| == |RowsOf(b)|
    && forall i :: 0 <= i < |RowsOf(a)| ==> RowsOf(b)[i] == RowsOf(a)[i].(upkeep := RowsOf(b)[i].upkeep)
  }

  /** A row's twin in an input with the same findings. */
  lemma SameFindingsRow(a: Input, b: Input, r: Row) returns (s: Row)
    requires SameFindings(a, b) && r in RowsOf(a)
    ensures s in RowsOf(b) && s == r.(upkeep := s.upkeep)
    ensures forall f :: Alone(s, f) == Alone(r, f) && CountsCalled(s, f) == CountsCalled(r, f) && CountsReached(s, f) == CountsReached(r, f)
  {
    var i :| 0 <= i < |RowsOf(a)| && RowsOf(a)[i] == r;
    s := RowsOf(b)[i];
  }

  lemma SameFindingsEvidence(a: Input, b: Input, l: Letter)
    requires SameFindings(a, b)
    ensures FindingEvidence(a, l) ==> FindingEvidence(b, l)
    ensures CalledKeys(RowsOf(a)) <= CalledKeys(RowsOf(b)) && ReachedKeys(RowsOf(a)) <= ReachedKeys(RowsOf(b))
  {
    hide Alone, CountsCalled, CountsReached, SameFindings, RowsOf;
    if r :| r in RowsOf(a) && SomeAlone(r, l) {
      var f :| f in r.findings && AtLeast(Alone(r, f), l);
      var s := SameFindingsRow(a, b, r);
      assert AtLeast(Alone(s, f), l);
    }
    forall k | k in CalledKeys(RowsOf(a)) ensures k in CalledKeys(RowsOf(b)) {
      var r, f :| r in RowsOf(a) && f in r.findings && CountsCalled(r, f) && k == Key(r.module_, f.id);
      var s := SameFindingsRow(a, b, r);
    }
    forall k | k in ReachedKeys(RowsOf(a)) ensures k in ReachedKeys(RowsOf(b)) {
      var r, f :| r in RowsOf(a) && f in r.findings && CountsReached(r, f) && k == Key(r.module_, f.id);
      var s := SameFindingsRow(a, b, r);
    }
  }

  /** When the upkeep of b reaches a letter only where a already has it, b's letter is no worse than a's. */
  lemma UpkeepDecides(a: Input, b: Input)
    requires SameFindings(a, b)
    requires forall l :: UpkeepEvidence(b, l) ==> AtLeast(RawLetter(a), l)
    ensures AtLeast(RawLetter(a), RawLetter(b))
  {
    hide RawLetter, FindingEvidence, UpkeepEvidence, SameFindings, CalledKeys, ReachedKeys, RowsOf;
    var l := RawLetter(b);
    LetterIsEvidence(b, l);
    LetterIsEvidence(a, l);
    SameFindingsBack(a, b);
    SameFindingsEvidence(b, a, l);
    SubsetCount(CalledKeys(RowsOf(b)), CalledKeys(RowsOf(a)));
    SubsetCount(ReachedKeys(RowsOf(b)), ReachedKeys(RowsOf(a)));
  }

  lemma SameFindingsBack(a: Input, b: Input)
    requires SameFindings(a, b)
    ensures SameFindings(b, a) && b.checksumMismatch == a.checksumMismatch
  {
  }

  lemma CompletedSameFindings(a: Input, b: Input)
    requires Completed(a, b)
    ensures SameFindings(a, b)
  {
    forall i | 0 <= i < |RowsOf(a)| ensures RowsOf(b)[i] == RowsOf(a)[i].(upkeep := RowsOf(b)[i].upkeep) {
      if i > 0 { assert RowCompleted(a.deps[i - 1], b.deps[i - 1]); }
    }
  }

  lemma CompletedRowUp(a: Input, b: Input, i: int)
    requires Completed(a, b) && 0 <= i < |RowsOf(a)|
    ensures |RowsOf(b)| == |RowsOf(a)| && RowUpkeep(RowsOf(b)[i]) >= RowUpkeep(RowsOf(a)[i])
  {
    if i > 0 { assert RowCompleted(a.deps[i - 1], b.deps[i - 1]); }
  }

  lemma RowUpkeepBelow(a: Input, r: Row)
    requires r in RowsOf(a)
    ensures AtLeast(RawLetter(a), BandOf(RowUpkeep(r)))
  {
    hide RawLetter;
    assert UpkeepEvidence(a, BandOf(RowUpkeep(r)));
    LetterIsEvidence(a, BandOf(RowUpkeep(r)));
  }

  /** Nothing known is taken back. */
  lemma CompletedNoBetter(a: Input, b: Input)
    requires Completed(a, b)
    ensures AtLeast(RawLetter(b), RawLetter(a))
  {
    hide RawLetter, RowUpkeep, Completed, SameFindings, RowsOf, BandOf;
    forall l | UpkeepEvidence(a, l) ensures AtLeast(RawLetter(b), l) {
      var r :| r in RowsOf(a) && AtLeast(BandOf(RowUpkeep(r)), l);
      var i :| 0 <= i < |RowsOf(a)| && RowsOf(a)[i] == r;
      CompletedRowUp(a, b, i);
      assert RowsOf(b)[i] in RowsOf(b);
      BandMonotone(RowUpkeep(r), RowUpkeep(RowsOf(b)[i]));
      RowUpkeepBelow(b, RowsOf(b)[i]);
    }
    CompletedSameFindings(a, b);
    SameFindingsBack(a, b);
    UpkeepDecides(b, a);
  }

  /** A row that did not withhold the letter cannot reach a worse one. */
  lemma CompletedRowBounded(a: Input, b: Input, i: int)
    requires Completed(a, b) && SelfMarked(a) && PendingOf(a, LetterScore(a)).None? && 0 <= i < |RowsOf(a)|
    ensures RowUpkeep(RowsOf(b)[i]) == RowUpkeep(RowsOf(a)[i]) || AtLeast(RawLetter(a), BandOf(RowUpkeep(RowsOf(b)[i])))
  {
    hide LetterScore;
    var r, s := RowsOf(a)[i], RowsOf(b)[i];
    if i == 0 {
      if RowUpkeep(s) != RowUpkeep(r) { assert RowUpkeep(s) <= UPKEEP_SELF; }
    } else {
      var d := a.deps[i - 1];
      assert RowCompleted(d, b.deps[i - 1]) && d in a.deps;
      if d.upkeep.missing {
        assert !Withholds(d, LetterScore(a));
        assert RowUpkeep(s) <= PossibleUpkeep(d);
        BandMonotone(RowUpkeep(s), PossibleUpkeep(d));
      }
    }
  }

  lemma CompletedNoWorse(a: Input, b: Input)
    requires Completed(a, b) && SelfMarked(a) && PendingOf(a, LetterScore(a)).None?
    ensures AtLeast(RawLetter(a), RawLetter(b))
  {
    hide LetterScore, PendingOf, RowUpkeep, RawLetter, SelfMarked, HasEvidence;
    forall l | UpkeepEvidence(b, l) ensures AtLeast(RawLetter(a), l) {
      var s :| s in RowsOf(b) && AtLeast(BandOf(RowUpkeep(s)), l);
      var i :| 0 <= i < |RowsOf(b)| && RowsOf(b)[i] == s;
      CompletedSameFindings(a, b);
      CompletedRowBounded(a, b, i);
      if RowUpkeep(s) == RowUpkeep(RowsOf(a)[i]) {
        RowUpkeepBelow(a, RowsOf(a)[i]);
      }
    }
    CompletedSameFindings(a, b);
    UpkeepDecides(a, b);
  }

  lemma CompletedPending(a: Input, b: Input, s: int, t: int)
    requires Completed(a, b) && PendingOf(a, s).None? && AtLeast(BandOf(t), BandOf(s))
    ensures PendingOf(b, t).None?
  {
    forall d | d in b.deps ensures !Withholds(d, t) {
      var i :| 0 <= i < |b.deps| && b.deps[i] == d;
      assert RowCompleted(a.deps[i], d) && a.deps[i] in a.deps;
      assert !Withholds(a.deps[i], s);
    }
  }

  /** A letter given without some upkeep data is the letter of every answer to it. */
  lemma CompletionKeepsLetter(a: Input, b: Input)
    requires Completed(a, b) && SelfMarked(a) && GradeMerged(a).letter.Some?
    ensures GradeMerged(b).letter == GradeMerged(a).letter
  {
    hide LetterScore, RawLetter, PendingOf, Completed, SelfMarked, GradeMerged;
    VerdictOf(a);
    VerdictOf(b);
    CompletedNoBetter(a, b);
    CompletedNoWorse(a, b);
    SameRank(RawLetter(a), RawLetter(b));
    RawLetterIs(a);
    RawLetterIs(b);
    CompletedPending(a, b, LetterScore(a), LetterScore(b));
  }

  lemma RawLetterIs(a: Input)
    ensures RawLetter(a) == BandOf(LetterScore(a))
  {
  }

  // ---- One row's own letter ----

  /** Some reading of the row's unread upkeep puts it in a worse band. */
  ghost predicate RowMoves(r: Row) {
    exists v :: Read(r.upkeep, v) && BandOf(RowScore(r.(upkeep := v))).WorseThan(BandOf(RowScore(r)))
  }

  const FOUND_ARCHIVED := Upkeep(true, false, false, false, false, false)

  lemma MovedByWorst(r: Row)
    requires r.upkeep.missing
    ensures RowMoves(r) <==> !ArchivedOrDeprecated(r.upkeep) && BandOf(WorstUpkeep(r)).WorseThan(BandOf(RowScore(r)))
  {
    hide RowVuln;
    forall v ensures RowVuln(r.(upkeep := v)) == RowVuln(r) { UpkeepKeepsVuln(r, v); }
    if !ArchivedOrDeprecated(r.upkeep) && BandOf(WorstUpkeep(r)).WorseThan(BandOf(RowScore(r))) {
      var s := r.(upkeep := FOUND_ARCHIVED);
      assert Read(r.upkeep, FOUND_ARCHIVED) && RowScore(s) >= WorstUpkeep(r);
      BandMonotone(WorstUpkeep(r), RowScore(s));
    }
  }

  lemma UpkeepKeepsVuln(r: Row, v: Upkeep)
    ensures RowVuln(r.(upkeep := v)) == RowVuln(r)
  {
    var s := r.(upkeep := v);
    assert ScoreAll(s.findings, s) == ScoreAll(r.findings, r);
    hide VulnScoreOf;
  }

  /** A row with unread upkeep shows no letter exactly when what was not read could worsen it, but for one kind of row: the
      module itself, test-only or not built, whose possible 35 the code takes for a 10. */
  lemma RowLetterExact(r: Row)
    requires r.upkeep.missing
    ensures (RowLetter(r) == None <==> RowMoves(r)) <==>
      !(r.isSelf && (r.testOnly == Yes || r.inBuild == No) && !ArchivedOrDeprecated(r.upkeep)
        && BandOf(UPKEEP_SELF).WorseThan(BandOf(RowScore(r))))
  {
    MovedByWorst(r);
    hide RowMoves, RowVuln;
  }

  const SELF_TEST_ONLY := Row("", true, false, Yes, Unknown, [], Upkeep(false, false, false, false, false, true))

  /** One such row: it shows an A, and is a C once the module turns out to be archived. */
  lemma {:induction false} RowLetterCanBeEarly()
    ensures RowLetter(SELF_TEST_ONLY) == Some(LetterA) && Read(SELF_TEST_ONLY.upkeep, FOUND_ARCHIVED)
    ensures BandOf(RowScore(SELF_TEST_ONLY.(upkeep := FOUND_ARCHIVED))) == LetterC
  {
    UpkeepKeepsVuln(SELF_TEST_ONLY, FOUND_ARCHIVED);
    assert ScoreAll([], SELF_TEST_ONLY) == [];
    assert OfTier([], TierCalled) == [] && OfTier([], TierImported) == [] && ExploitedOf([]) == [];
    assert RowVuln(SELF_TEST_ONLY).score == 0;
    hide RowVuln;
  }

  // ---- Through Grade's merge and re-runs ----

  /** Two raw inputs whose merged forms and re-runs carry a letter over carry Grade's letter over. */
  lemma GradeCarries(a: Input, b: Input)
    requires GradeOf(a).pending.None?
    requires GradeOnceOf(a).letter.Some? ==> GradeOnceOf(b).letter == GradeOnceOf(a).letter
    requires HasFailed(MergedInput(b)) ==> HasFailed(MergedInput(a))
    requires forall sev :: GradeOnceOf(WithLookupSeverity(MergedInput(a), sev)).letter.Some? ==>
      GradeOnceOf(WithLookupSeverity(MergedInput(b), sev)).letter == GradeOnceOf(WithLookupSeverity(MergedInput(a), sev)).letter
    ensures GradeOf(b).letter == GradeOf(a).letter && GradeOf(b).pending.None?
  {
    hide GradeOnceOf, MergedInput, WithLookupSeverity, HasFailed, EstimateMatters;
    FirstRun(a);
    FirstRun(b);
    LetterOrPending(a);
    LetterOrPending(b);
    var letter := GradeOnceOf(a).letter;
    assert GradeOnceOf(MergedInput(a)) == GradeOnceOf(a);
    assert letter.Some? && !LookupMatters(MergedInput(a), letter);
    assert !LookupMatters(MergedInput(b), letter);
  }

  lemma LetterOrPending(input: Input)
    ensures GradeOnceOf(input).pending.None? <==> GradeOnceOf(input).letter.Some?
    ensures GradeOnceOf(MergedInput(input)).pending.None? <==> GradeOnceOf(MergedInput(input)).letter.Some?
  {
  }

  lemma CompletedMerged(a: Input, b: Input)
    requires Completed(a, b)
    ensures Completed(MergedInput(a), MergedInput(b))
    ensures SelfMarked(a) ==> SelfMarked(MergedInput(a))
  {
    forall i | 0 <= i < |a.deps| ensures RowCompleted(MergedRow(a.deps[i]), MergedRow(b.deps[i])) {
      assert RowCompleted(a.deps[i], b.deps[i]);
    }
  }

  lemma CompletedMapped(a: Input, b: Input, g: Finding -> Finding)
    requires Completed(a, b)
    ensures Completed(MapInput(a, g), MapInput(b, g))
    ensures SelfMarked(a) ==> SelfMarked(MapInput(a, g))
  {
    forall i | 0 <= i < |a.deps| ensures RowCompleted(MapRow(a.deps[i], g), MapRow(b.deps[i], g)) {
      assert RowCompleted(a.deps[i], b.deps[i]);
    }
  }

  lemma SameFindingsSameFlags(a: Input, b: Input)
    requires SameFindings(a, b) && HasFailed(b)
    ensures HasFailed(a)
  {
    var r, f :| r in RowsOf(b) && f in r.findings && f.lookupFailed;
    var i :| 0 <= i < |RowsOf(b)| && RowsOf(b)[i] == r;
    assert RowsOf(a)[i] in RowsOf(a) && f in RowsOf(a)[i].findings;
  }

  lemma SubstitutedOnce(a: Input, sev: Severity)
    ensures Clean(MergedInput(a))
    ensures GradeOnceOf(WithLookupSeverity(MergedInput(a), sev)) == GradeMerged(WithLookupSeverity(MergedInput(a), sev))
  {
    MergedIsClean(a);
    var m, w := MergedInput(a), WithLookupSeverity(MergedInput(a), sev);
    assert InputRel(m, w, SameAdvisory);
    SameAdvisoryKeepsClean(m, w);
    CleanStaysMerged(w);
  }

  /** Pending is sound for upkeep: when Grade gives a letter, every completion of the upkeep data it could not read, the
      module's own and the dependencies', gets the same letter. */
  lemma UpkeepPendingSound(a: Input, b: Input)
    requires SelfMarked(a) && Completed(a, b) && GradeOf(a).pending.None?
    ensures GradeOf(b).letter == GradeOf(a).letter && GradeOf(b).pending.None?
  {
    hide GradeMerged, GradeOnceOf, MergedInput, WithLookupSeverity, HasFailed, GradeOf, SelfMarked, Completed, SameFindings;
    var ma, mb := MergedInput(a), MergedInput(b);
    CompletedMerged(a, b);
    FirstRun(a);
    FirstRun(b);
    if GradeOnceOf(a).letter.Some? { CompletionKeepsLetter(ma, mb); }
    CompletedSameFindings(ma, mb);
    if HasFailed(mb) { SameFindingsSameFlags(ma, mb); }
    forall sev | GradeOnceOf(WithLookupSeverity(ma, sev)).letter.Some?
      ensures GradeOnceOf(WithLookupSeverity(mb, sev)).letter == GradeOnceOf(WithLookupSeverity(ma, sev)).letter
    {
      LookupCompleted(ma, mb, sev);
      SubstitutedOnce(a, sev);
      SubstitutedOnce(b, sev);
      CompletionKeepsLetter(WithLookupSeverity(ma, sev), WithLookupSeverity(mb, sev));
    }
    GradeCarries(a, b);
  }

  lemma LookupCompleted(ma: Input, mb: Input, sev: Severity)
    requires Completed(ma, mb) && SelfMarked(ma)
    ensures Completed(WithLookupSeverity(ma, sev), WithLookupSeverity(mb, sev)) && SelfMarked(WithLookupSeverity(ma, sev))
  {
    CompletedMapped(ma, mb, FailedAs(sev));
  }

  // ---- Upkeep: withheld only when it could matter ----

  function CleanRead(u: Upkeep): Upkeep { u.(missing := false) }

  /** Every unread upkeep turned out to be nothing new. */
  function AllClean(input: Input): Input {
    input.(self := input.self.(upkeep := CleanRead(input.self.upkeep)),
           deps := seq(|input.deps|, i requires 0 <= i < |input.deps| => input.deps[i].(upkeep := CleanRead(input.deps[i].upkeep))),
           checks := input.checks.(selfStatusFailed := false))
  }

  function ArchivedRead(u: Upkeep): Upkeep { if u.missing then u.(missing := false, archived := true) else u }

  /** Every unread dependency turned out to be archived. */
  function DepsArchived(input: Input): Input {
    AllClean(input).(deps := seq(|input.deps|, i requires 0 <= i < |input.deps| =>
      input.deps[i].(upkeep := ArchivedRead(input.deps[i].upkeep))))
  }

  /** The module itself turned out to be archived. */
  function SelfArchived(input: Input): Input {
    AllClean(input).(self := input.self.(upkeep := input.self.upkeep.(missing := false, archived := true)))
  }

  predicate NoneMissing(input: Input) {
    !input.self.upkeep.missing && !input.checks.selfStatusFailed && forall d :: d in input.deps ==> !d.upkeep.missing
  }

  lemma CleanIsCompletion(a: Input)
    ensures Completed(a, AllClean(a)) && NoneMissing(AllClean(a))
    ensures Completed(a, DepsArchived(a)) && NoneMissing(DepsArchived(a))
  {
    forall i | 0 <= i < |a.deps| ensures RowCompleted(a.deps[i], AllClean(a).deps[i]) && RowCompleted(a.deps[i], DepsArchived(a).deps[i]) {}
  }

  lemma SelfArchivedIsCompletion(a: Input)
    requires a.self.upkeep.missing || a.checks.selfStatusFailed
    ensures Completed(a, SelfArchived(a)) && NoneMissing(SelfArchived(a))
  {
    CleanIsCompletion(a);
  }

  lemma CleanSameLetter(a: Input)
    ensures RawLetter(AllClean(a)) == RawLetter(a)
  {
    hide *;
    var b := AllClean(a);
    CleanIsCompletion(a);
    CompletedNoBetter(a, b);
    CompletedSameFindings(a, b);
    forall l | UpkeepEvidence(b, l) ensures AtLeast(RawLetter(a), l) { CleanEvidence(a, l); }
    UpkeepDecides(a, b);
    RanksMeet(RawLetter(a), RawLetter(b));
  }

  lemma RanksMeet(a: Letter, b: Letter)
    requires AtLeast(a, b) && AtLeast(b, a)
    ensures a == b
  {
  }

  lemma CleanEvidence(a: Input, l: Letter)
    requires UpkeepEvidence(AllClean(a), l)
    ensures AtLeast(RawLetter(a), l)
  {
    hide RawLetter, RowUpkeep, BandOf;
    var b := AllClean(a);
    var s :| s in RowsOf(b) && AtLeast(BandOf(RowUpkeep(s)), l);
    var i :| 0 <= i < |RowsOf(b)| && RowsOf(b)[i] == s;
    assert s == RowsOf(a)[i].(upkeep := CleanRead(RowsOf(a)[i].upkeep));
    CleanRowSame(RowsOf(a)[i]);
    RowUpkeepBelow(a, RowsOf(a)[i]);
  }

  lemma CleanRowSame(r: Row)
    ensures RowUpkeep(r.(upkeep := CleanRead(r.upkeep))) == RowUpkeep(r)
  {
  }

  /** With nothing left unread, a score no better than one that passed the earlier checks is not withheld. */
  lemma ReadIsNotPending(a: Input, b: Input, s: int, t: int)
    requires PendingOf(a, s) == Some(DependencyMaintenance) || (PendingOf(a, s) == Some(ModuleStatus) && !a.checks.selfAdvisoriesFailed)
    requires b.checks == a.checks.(selfStatusFailed := false) && NoneMissing(b)
    requires AtLeast(BandOf(t), BandOf(s))
    ensures PendingOf(b, t).None?
  {
  }

  lemma GradedAs(a: Input)
    requires PendingOf(a, LetterScore(a)).None?
    ensures GradeMerged(a).letter == Some(RawLetter(a))
  {
    hide LetterScore, PendingOf;
    VerdictOf(a);
  }

  lemma CleanGraded(a: Input)
    requires PendingOf(a, LetterScore(a)) == Some(DependencyMaintenance)
      || (PendingOf(a, LetterScore(a)) == Some(ModuleStatus) && !a.checks.selfAdvisoriesFailed)
    ensures GradeMerged(AllClean(a)).letter == Some(RawLetter(a))
  {
    hide LetterScore, PendingOf, GradeMerged, NoneMissing, Completed;
    CleanIsCompletion(a);
    CleanSameLetter(a);
    RawLetterIs(a);
    RawLetterIs(AllClean(a));
    ReadIsNotPending(a, AllClean(a), LetterScore(a), LetterScore(AllClean(a)));
    GradedAs(AllClean(a));
  }

  lemma CompletionGraded(a: Input, b: Input)
    requires PendingOf(a, LetterScore(a)) == Some(DependencyMaintenance)
      || (PendingOf(a, LetterScore(a)) == Some(ModuleStatus) && !a.checks.selfAdvisoriesFailed)
    requires Completed(a, b) && NoneMissing(b)
    ensures GradeMerged(b).letter == Some(RawLetter(b))
  {
    assert b.checks == a.checks.(selfStatusFailed := false);
    hide LetterScore, PendingOf, GradeMerged, NoneMissing, Completed;
    CompletedNoBetter(a, b);
    RawLetterIs(a);
    RawLetterIs(b);
    ReadIsNotPending(a, b, LetterScore(a), LetterScore(b));
    GradedAs(b);
  }

  lemma ArchivedDepIsWorse(a: Input, d: Row, score: int)
    requires SelfMarked(a) && d in a.deps && Withholds(d, score)
    ensures AtLeast(RawLetter(DepsArchived(a)), BandOf(PossibleUpkeep(d)))
  {
    var b := DepsArchived(a);
    var i :| 0 <= i < |a.deps| && a.deps[i] == d;
    assert RowsOf(b)[i + 1] == d.(upkeep := ArchivedRead(d.upkeep));
    assert RowsOf(b)[i + 1] in RowsOf(b) && RowUpkeep(RowsOf(b)[i + 1]) == PossibleUpkeep(d);
    RowUpkeepBelow(b, RowsOf(b)[i + 1]);
  }

  /** dependency_maintenance is tight: the missing data can be completed in two ways that get two different letters. */
  lemma DependencyPendingTight(a: Input)
    requires SelfMarked(a) && GradeOnceOf(a).pending == Some(DependencyMaintenance)
    ensures Completed(a, AllClean(a)) && Completed(a, DepsArchived(a))
    ensures GradeOnceOf(AllClean(a)).letter.Some? && GradeOnceOf(DepsArchived(a)).letter.Some?
    ensures GradeOnceOf(AllClean(a)).letter != GradeOnceOf(DepsArchived(a)).letter
  {
    var m := MergedInput(a);
    PendingIs(a);
    CleanIsCompletion(a);
    CleanIsCompletion(m);
    assert MergedInput(AllClean(a)) == AllClean(m) && MergedInput(DepsArchived(a)) == DepsArchived(m) by { CleanMerges(a); }
    CompletedMerged(a, AllClean(a));
    assert SelfMarked(m);
    var d :| d in m.deps && Withholds(d, LetterScore(m));
    hide LetterScore, MergedInput, GradeMerged, RawLetter, Completed, NoneMissing, SelfMarked;
    CleanGraded(m);
    CompletionGraded(m, DepsArchived(m));
    RawLetterIs(m);
    ArchivedDepIsWorse(m, d, LetterScore(m));
  }

  lemma PendingIs(a: Input)
    ensures GradeOnceOf(a).pending == PendingOf(MergedInput(a), LetterScore(MergedInput(a)))
  {
    hide LetterScore, PendingOf;
    VerdictOf(MergedInput(a));
  }

  lemma CleanMerges(a: Input)
    ensures MergedInput(AllClean(a)) == AllClean(MergedInput(a))
    ensures MergedInput(DepsArchived(a)) == DepsArchived(MergedInput(a))
    ensures MergedInput(SelfArchived(a)) == SelfArchived(MergedInput(a))
  {
    hide Merged;
    assert MergedInput(AllClean(a)).deps == AllClean(MergedInput(a)).deps;
    assert MergedInput(DepsArchived(a)).deps == DepsArchived(MergedInput(a)).deps;
  }

  /** module_status is tight in the same way. */
  lemma ModulePendingTight(a: Input)
    requires a.self.isSelf && !a.checks.selfAdvisoriesFailed && GradeOnceOf(a).pending == Some(ModuleStatus)
    ensures Completed(a, AllClean(a)) && Completed(a, SelfArchived(a))
    ensures GradeOnceOf(AllClean(a)).letter.Some? && GradeOnceOf(SelfArchived(a)).letter.Some?
    ensures GradeOnceOf(AllClean(a)).letter != GradeOnceOf(SelfArchived(a)).letter
  {
    var m := MergedInput(a);
    PendingIs(a);
    assert BandOf(UPKEEP_SELF).WorseThan(BandOf(LetterScore(m)));
    CleanIsCompletion(a);
    SelfArchivedIsCompletion(a);
    SelfArchivedIsCompletion(m);
    CleanMerges(a);
    hide LetterScore, MergedInput, GradeMerged, RawLetter, Completed, NoneMissing, PendingOf;
    CleanGraded(m);
    CompletionGraded(m, SelfArchived(m));
    RawLetterIs(m);
    ArchivedSelfIsC(m);
  }

  lemma ArchivedSelfIsC(a: Input)
    requires a.self.isSelf
    ensures AtLeast(RawLetter(SelfArchived(a)), BandOf(UPKEEP_SELF))
  {
    var b := SelfArchived(a);
    assert RowsOf(b)[0] == b.self && b.self in RowsOf(b) && RowUpkeep(b.self) == UPKEEP_SELF;
    RowUpkeepBelow(b, b.self);
  }

  /** Why dependencies must not be marked as the module itself: the worst score pendingFor assumes for one is the score it
      would really get exactly when it is not so marked. */
  lemma PossibleIsWorst(d: Row)
    ensures PossibleUpkeep(d) == WorstUpkeep(d) <==> !d.isSelf
  {
  }

  // ---- The checksum and the known-exploited catalog ----

  /** go mod verify completed after all. */
  predicate ChecksumVerified(a: Input, b: Input) {
    && b == a.(checksumMismatch := b.checksumMismatch, checks := a.checks.(checksumUnverified := false))
    && (a.checksumMismatch ==> b.checksumMismatch)
  }

  lemma UnverifiedIsF(a: Input)
    requires a.checks.checksumUnverified || a.checks.kevUnchecked > 0
    requires GradeMerged(a).letter.Some?
    ensures RawLetter(a) == LetterF && GradeMerged(a).letter == Some(LetterF)
  {
    hide LetterScore, GradeMerged;
    VerdictOf(a);
    RawLetterIs(a);
  }

  lemma PendingAtF(a: Input, b: Input, s: int, t: int)
    requires PendingOf(a, s).None? && BandOf(s) == LetterF && BandOf(t) == LetterF
    requires b.checks == a.checks.(checksumUnverified := b.checks.checksumUnverified, kevUnchecked := b.checks.kevUnchecked)
    ensures PendingOf(b, t).None?
  {
  }

  lemma ChecksumStaysF(a: Input, b: Input)
    requires a.checks.checksumUnverified && ChecksumVerified(a, b) && GradeMerged(a).letter.Some?
    ensures GradeMerged(b).letter == GradeMerged(a).letter
  {
    hide LetterScore, RawLetter, GradeMerged, PendingOf, CalledKeys;
    UnverifiedIsF(a);
    ExactlyF(a);
    ExactlyF(b);
    assert RowsOf(a) == RowsOf(b);
    RawLetterIs(a);
    RawLetterIs(b);
    VerdictOf(a);
    VerdictOf(b);
    PendingAtF(a, b, LetterScore(a), LetterScore(b));
  }

  /** Pending is sound for the checksum: a letter given while it was unverified is the letter of either outcome. */
  lemma ChecksumPendingSound(a: Input, b: Input)
    requires a.checks.checksumUnverified && ChecksumVerified(a, b) && GradeOf(a).pending.None?
    ensures GradeOf(b).letter == GradeOf(a).letter && GradeOf(b).pending.None?
  {
    var ma, mb := MergedInput(a), MergedInput(b);
    assert ChecksumVerified(ma, mb) && RowsOf(mb) == RowsOf(ma) && ma.checks.checksumUnverified;
    assert HasFailed(mb) ==> HasFailed(ma);
    hide GradeMerged, GradeOnceOf, MergedInput, HasFailed, GradeOf;
    FirstRun(a);
    FirstRun(b);
    if GradeOnceOf(a).letter.Some? { ChecksumStaysF(ma, mb); }
    forall sev | GradeOnceOf(WithLookupSeverity(ma, sev)).letter.Some?
      ensures GradeOnceOf(WithLookupSeverity(mb, sev)).letter == GradeOnceOf(WithLookupSeverity(ma, sev)).letter
    {
      SubstitutedOnce(a, sev);
      SubstitutedOnce(b, sev);
      ChecksumStaysF(WithLookupSeverity(ma, sev), WithLookupSeverity(mb, sev));
    }
    hide WithLookupSeverity;
    GradeCarries(a, b);
  }

  function Verified(a: Input, mismatch: bool): Input {
    a.(checksumMismatch := mismatch, checks := a.checks.(checksumUnverified := false))
  }

  lemma MismatchIsF(m: Input)
    requires PendingOf(m, LetterScore(m)) == Some(Checksum) && !m.checks.selfAdvisoriesFailed
    ensures GradeMerged(Verified(m, true)).letter == Some(LetterF)
  {
    var b := Verified(m, true);
    hide LetterScore, RawLetter, GradeMerged, CalledKeys;
    ExactlyF(b);
    RawLetterIs(b);
    VerdictOf(b);
  }

  lemma MatchIsNotF(m: Input)
    requires PendingOf(m, LetterScore(m)) == Some(Checksum)
    ensures GradeMerged(Verified(m, m.checksumMismatch)).letter != Some(LetterF)
  {
    hide LetterScore, RawLetter, GradeMerged, BandOf, Withholds;
    var b := Verified(m, m.checksumMismatch);
    assert b == m.(checks := b.checks);
    ChecksDoNotScore(m, b.checks);
    RawLetterIs(m);
    VerdictOf(b);
    NotF(LetterScore(m));
    hide PendingOf, RawLetter;
  }

  lemma NotF(score: int)
    ensures BandOf(TREE_F_SCORE).WorseThan(BandOf(score)) <==> BandOf(score) != LetterF
  {
  }

  /** checksum is tight: a mismatch would be an F, and a clean checksum is not. */
  lemma ChecksumPendingTight(a: Input)
    requires GradeOnceOf(a).pending == Some(Checksum) && !a.checks.selfAdvisoriesFailed
    ensures GradeOnceOf(Verified(a, true)).letter == Some(LetterF)
    ensures GradeOnceOf(Verified(a, a.checksumMismatch)).letter != Some(LetterF)
  {
    PendingIs(a);
    hide LetterScore, GradeMerged;
    MismatchIsF(MergedInput(a));
    MatchIsNotF(MergedInput(a));
    assert MergedInput(Verified(a, true)) == Verified(MergedInput(a), true);
    assert MergedInput(Verified(a, a.checksumMismatch)) == Verified(MergedInput(a), a.checksumMismatch);
  }

  // ---- Known-exploited flags ----

  /** The catalog may list the advisory after all. */
  predicate Exploits(f: Finding, g: Finding) { g == f.(exploited := g.exploited) && (f.exploited ==> g.exploited) }

  ghost predicate CatalogRead(a: Input, b: Input) {
    InputRel(a, b.(checks := a.checks), Exploits) && b.checks == a.checks.(kevUnchecked := b.checks.kevUnchecked)
  }

  lemma ExploitsDominates(r: Row, f: Finding, g: Finding)
    requires Exploits(f, g)
    ensures Dominates(r, f, g)
  {
    var s, t := ScoreFinding(f, r), ScoreFinding(g, r);
    FinishMonotone(r.testOnly, s.score, s.tier == TierCalled && f.exploited, t.score, t.tier == TierCalled && g.exploited);
    BandMonotone(AloneScore(r, f), AloneScore(r, g));
  }

  lemma ExploitsGrows(a: Input, b: Input)
    requires InputRel(a, b, Exploits)
    ensures AtLeast(RawLetter(b), RawLetter(a))
  {
    forall r, f, g | Exploits(f, g) ensures Dominates(r, f, g) { ExploitsDominates(r, f, g); }
    hide Dominates, Exploits, RawLetter;
    assert RowDominated(a.self, b.self);
    forall i | 0 <= i < |a.deps| ensures RowDominated(a.deps[i], b.deps[i]) { assert RowRel(a.deps[i], b.deps[i], Exploits); }
    LetterGrows(a, b);
  }

  lemma ChecksDoNotScore(b: Input, c: Checks)
    ensures RawLetter(b.(checks := c)) == RawLetter(b)
  {
    var d := b.(checks := c);
    assert RowsOf(d) == RowsOf(b);
    hide RawLetter, RowsOf, SomeAlone, RowUpkeep, CalledKeys, ReachedKeys;
    assert forall l :: HasEvidence(d, l) <==> HasEvidence(b, l);
    SameEvidenceSameLetter(d, b);
  }

  lemma CatalogStaysF(a: Input, b: Input)
    requires a.checks.kevUnchecked > 0 && CatalogRead(a, b) && GradeMerged(a).letter.Some?
    ensures GradeMerged(b).letter == GradeMerged(a).letter
  {
    hide LetterScore, RawLetter, GradeMerged, PendingOf;
    UnverifiedIsF(a);
    ExploitsGrows(a, b.(checks := a.checks));
    ChecksDoNotScore(b, a.checks);
    RawLetterIs(a);
    RawLetterIs(b);
    VerdictOf(a);
    VerdictOf(b);
    PendingAtF(a, b, LetterScore(a), LetterScore(b));
  }

  lemma ExploitsMerged(a: Row, b: Row)
    requires RowRel(a, b, Exploits)
    ensures RowRel(MergedRow(a), MergedRow(b), Exploits)
  {
    var fs, gs := a.findings, b.findings;
    forall j | 0 <= j < |fs| ensures SameCore(fs[j], gs[j]) { assert Exploits(fs[j], gs[j]); }
    SameCoresSameIds(fs, gs);
    SameIdsSameLeaders(fs, gs, |fs|);
    hide GroupValue, Exploits, SameIds;
    var l := LeadersUpTo(fs, |fs|);
    forall k | 0 <= k < |l| ensures Exploits(Merged(fs)[k], Merged(gs)[k]) {
      assert l[k] in l;
      ExploitsGroup(fs, gs, l[k]);
    }
  }

  lemma ExploitsGroup(fs: seq<Finding>, gs: seq<Finding>, i: int)
    requires |fs| == |gs| && 0 <= i < |fs| && forall j :: 0 <= j < |fs| ==> Exploits(fs[j], gs[j])
    ensures Exploits(GroupValue(fs, i), GroupValue(gs, i))
  {
    hide GroupValue, Unlinked, TopReach, HasExploited, Class, SameIds;
    SameCoreGroup(fs, gs, i);
    if !Unlinked(fs, i) {
      ExploitsClass(fs, gs, i);
      ExploitsCore(GroupValue(fs, i), GroupValue(gs, i));
    }
  }

  lemma ExploitsCore(f: Finding, g: Finding)
    requires SameCore(f, g) && f.reach == g.reach && (f.exploited ==> g.exploited)
    ensures Exploits(f, g)
  {
  }

  lemma ExploitsClass(fs: seq<Finding>, gs: seq<Finding>, i: int)
    requires SameIds(fs, gs) && 0 <= i < |fs| && forall j :: 0 <= j < |fs| ==> Exploits(fs[j], gs[j])
    ensures TopReach(Class(fs, i)) == TopReach(Class(gs, i))
    ensures HasExploited(Class(fs, i)) ==> HasExploited(Class(gs, i))
  {
    hide Class, SameIds;
    SameIdsBack(fs, gs);
    forall r ensures HasReach(Class(fs, i), r) <==> HasReach(Class(gs, i), r) {
      if f :| f in Class(fs, i) && f.reach == r { var j := MemberTwin(fs, gs, i, f); }
      if g :| g in Class(gs, i) && g.reach == r { var j := MemberTwin(gs, fs, i, g); }
    }
    if f :| f in Class(fs, i) && f.exploited { var j := MemberTwin(fs, gs, i, f); }
  }

  lemma CatalogMerged(a: Input, b: Input)
    requires CatalogRead(a, b)
    ensures CatalogRead(MergedInput(a), MergedInput(b))
  {
    ExploitsMerged(a.self, b.self);
    forall i | 0 <= i < |a.deps| ensures RowRel(MergedInput(a).deps[i], MergedInput(b).deps[i], Exploits) {
      ExploitsMerged(a.deps[i], b.deps[i]);
    }
  }

  lemma CatalogMapped(a: Input, b: Input, sev: Severity)
    requires CatalogRead(a, b)
    ensures CatalogRead(WithLookupSeverity(a, sev), WithLookupSeverity(b, sev))
  {
    forall r, s | RowRel(r, s, Exploits) ensures RowRel(MapRow(r, FailedAs(sev)), MapRow(s, FailedAs(sev)), Exploits) {
      forall j | 0 <= j < |r.findings| ensures Exploits(MapRow(r, FailedAs(sev)).findings[j], MapRow(s, FailedAs(sev)).findings[j]) {
        assert Exploits(r.findings[j], s.findings[j]);
      }
    }
  }

  lemma CatalogSameFlags(a: Input, b: Input)
    requires CatalogRead(a, b) && HasFailed(b)
    ensures HasFailed(a)
  {
    var c := b.(checks := a.checks);
    RowsRelated(a, c, Exploits);
    assert RowsOf(c) == RowsOf(b);
    var r, f :| r in RowsOf(b) && f in r.findings && f.lookupFailed;
    var i :| 0 <= i < |RowsOf(b)| && RowsOf(b)[i] == r;
    var j :| 0 <= j < |r.findings| && r.findings[j] == f;
    FlagOfTwin(RowsOf(a)[i], r, j);
    assert RowsOf(a)[i] in RowsOf(a);
  }

  lemma FlagOfTwin(q: Row, r: Row, j: int)
    requires RowRel(q, r, Exploits) && 0 <= j < |r.findings| && r.findings[j].lookupFailed
    ensures j < |q.findings| && q.findings[j] in q.findings && q.findings[j].lookupFailed
  {
    assert Exploits(q.findings[j], r.findings[j]);
  }

  /** Pending is sound for the catalog: a letter given while some known-exploited flags were unchecked is the letter of every
      catalog. */
  lemma CatalogPendingSound(a: Input, b: Input)
    requires a.checks.kevUnchecked > 0 && CatalogRead(a, b) && GradeOf(a).pending.None?
    ensures GradeOf(b).letter == GradeOf(a).letter && GradeOf(b).pending.None?
  {
    var ma, mb := MergedInput(a), MergedInput(b);
    assert ma.checks == a.checks && forall sev :: WithLookupSeverity(ma, sev).checks == a.checks;
    CatalogMerged(a, b);
    hide GradeMerged, GradeOnceOf, MergedInput, HasFailed, GradeOf, CatalogRead, WithLookupSeverity;
    FirstRun(a);
    FirstRun(b);
    if GradeOnceOf(a).letter.Some? { CatalogStaysF(ma, mb); }
    if HasFailed(mb) { CatalogSameFlags(ma, mb); }
    forall sev | GradeOnceOf(WithLookupSeverity(ma, sev)).letter.Some?
      ensures GradeOnceOf(WithLookupSeverity(mb, sev)).letter == GradeOnceOf(WithLookupSeverity(ma, sev)).letter
    {
      SubstitutedOnce(a, sev);
      SubstitutedOnce(b, sev);
      CatalogMapped(ma, mb, sev);
      CatalogStaysF(WithLookupSeverity(ma, sev), WithLookupSeverity(mb, sev));
    }
    GradeCarries(a, b);
  }
}
