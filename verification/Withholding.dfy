/** Why Grade withholds a letter: each check that did not run, exactly (pkg/grade/pending.go, pkg/grade/engine.go). */
module Withholding {
  import opened GradeTypes
  import opened Scoring
  import opened PendingRule
  import opened Engine
  import opened Letters
  import opened Relations
  import opened Sandwich

  /** The upkeep of a dependency that may be compiled in, and not for tests alone, was not read. */
  predicate UnreadInBuild(d: Row) { d.upkeep.missing && d.testOnly != Yes && d.inBuild != No }

  /** The check did not run, and for some of them only where it could still worsen l. A failed severity lookup is another
      matter: it is asked of the re-runs. */
  ghost predicate NotRun(a: Input, l: Letter, check: PendingCheck) {
    match check
    case VulnerabilityScan => a.checks.vulnScanFailed
    case ScanIncomplete => a.checks.scanTimedOut
    case CalledPass => a.checks.calledPassStale
    case Checksum => a.checks.checksumUnverified && l != LetterF
    case KnownExploited => a.checks.kevUnchecked > 0 && l != LetterF
    case ModuleStatus => (a.checks.selfStatusFailed || a.self.upkeep.missing) && (l == LetterA || l == LetterB)
    case ModuleAdvisories => a.checks.selfAdvisoriesFailed
    case DependencyMaintenance =>
      l == LetterA && exists d :: d in a.deps && UnreadInBuild(d)
    case SeverityLookup => false
  }

  /** The order in which the checks are asked. */
  function Turn(check: PendingCheck): nat {
    match check
    case VulnerabilityScan => 0
    case ScanIncomplete => 1
    case CalledPass => 2
    case Checksum => 3
    case KnownExploited => 4
    case ModuleStatus => 5
    case ModuleAdvisories => 6
    case DependencyMaintenance => 7
    case SeverityLookup => 8
  }

  lemma WithholdsMeans(a: Input, s: int)
    ensures (exists d :: d in a.deps && Withholds(d, s)) <==> NotRun(a, BandOf(s), DependencyMaintenance)
  {
    forall d: Row ensures Withholds(d, s) <==> d.upkeep.missing && BandOf(s) == LetterA && d.testOnly != Yes && d.inBuild != No {}
    hide Withholds, BandOf;
  }

  ghost function FirstNotRun(a: Input, l: Letter): Option<PendingCheck> {
    if NotRun(a, l, VulnerabilityScan) then Some(VulnerabilityScan)
    else if NotRun(a, l, ScanIncomplete) then Some(ScanIncomplete)
    else if NotRun(a, l, CalledPass) then Some(CalledPass)
    else if NotRun(a, l, Checksum) then Some(Checksum)
    else if NotRun(a, l, KnownExploited) then Some(KnownExploited)
    else if NotRun(a, l, ModuleStatus) then Some(ModuleStatus)
    else if NotRun(a, l, ModuleAdvisories) then Some(ModuleAdvisories)
    else if NotRun(a, l, DependencyMaintenance) then Some(DependencyMaintenance)
    else None
  }

  lemma PendingIsFirst(a: Input, s: int)
    ensures PendingOf(a, s) == FirstNotRun(a, BandOf(s))
  {
    WithholdsMeans(a, s);
    hide Withholds;
  }

  lemma FirstIs(a: Input, l: Letter, check: PendingCheck)
    ensures FirstNotRun(a, l) == Some(check) <==> NotRun(a, l, check) && forall j :: Turn(j) < Turn(check) ==> !NotRun(a, l, j)
    ensures FirstNotRun(a, l).None? <==> forall j :: !NotRun(a, l, j)
  {
    assert !NotRun(a, l, SeverityLookup);
    hide NotRun;
    assert Turn(VulnerabilityScan) < Turn(ScanIncomplete) < Turn(CalledPass) < Turn(Checksum) < Turn(KnownExploited);
    assert Turn(KnownExploited) < Turn(ModuleStatus) < Turn(ModuleAdvisories) < Turn(DependencyMaintenance);
  }

  lemma FirstCheck(a: Input, s: int, check: PendingCheck)
    ensures PendingOf(a, s) == Some(check) <==> NotRun(a, BandOf(s), check) && forall j :: Turn(j) < Turn(check) ==> !NotRun(a, BandOf(s), j)
    ensures PendingOf(a, s).None? <==> forall j :: !NotRun(a, BandOf(s), j)
  {
    PendingIsFirst(a, s);
    FirstIs(a, BandOf(s), check);
    hide PendingOf, FirstNotRun, NotRun, Turn, BandOf;
  }

  lemma MergedDeps(a: Input)
    ensures var m := MergedInput(a); m.checks == a.checks && m.self.upkeep == a.self.upkeep && |m.deps| == |a.deps|
    ensures forall i :: 0 <= i < |a.deps| ==> MergedInput(a).deps[i] == MergedRow(a.deps[i])
  {
    FlagsKept(a.self);
    hide MergedRow;
  }

  lemma MergedUnread(a: Input)
    ensures (exists d :: d in MergedInput(a).deps && UnreadInBuild(d)) <==> exists d :: d in a.deps && UnreadInBuild(d)
  {
    var m := MergedInput(a);
    MergedDeps(a);
    hide MergedInput, MergedRow;
    forall i | 0 <= i < |a.deps| ensures UnreadInBuild(m.deps[i]) <==> UnreadInBuild(a.deps[i]) { FlagsKept(a.deps[i]); }
    hide UnreadInBuild;
    if d :| d in m.deps && UnreadInBuild(d) {
      var i :| 0 <= i < |m.deps| && m.deps[i] == d;
      assert a.deps[i] in a.deps;
    }
    if d :| d in a.deps && UnreadInBuild(d) {
      var i :| 0 <= i < |a.deps| && a.deps[i] == d;
      assert m.deps[i] in m.deps;
    }
  }

  lemma MergedNotRun(a: Input, l: Letter, check: PendingCheck)
    ensures NotRun(MergedInput(a), l, check) <==> NotRun(a, l, check)
  {
    MergedDeps(a);
    MergedUnread(a);
    hide MergedInput, UnreadInBuild;
  }

  lemma FlagsKept(r: Row)
    ensures MergedRow(r) == r.(findings := MergedRow(r).findings)
  {
  }

  /** A check that failed is never read as a clean result, and which one is named: a letter is given only when every check ran
      or could not worsen it; otherwise the first in the order above is the one that is pending, and severity_lookup when
      there is none but some answer to the failed lookups changes the letter. */
  lemma WithheldExactly(a: Input)
    ensures var g, l := GradeOf(a), RawLetter(MergedInput(a));
      && (forall check :: check != SeverityLookup ==>
            (g.pending == Some(check) <==> NotRun(a, l, check) && forall j :: Turn(j) < Turn(check) ==> !NotRun(a, l, j)))
      && (g.pending == Some(SeverityLookup) <==>
            ((forall j :: !NotRun(a, l, j))
             && exists b :: InputRel(MergedInput(a), b, Answers) && GradeOnceOf(b).letter != Some(l)))
      && g.letter == (if g.pending.Some? then None else Some(l))
  {
    var m, l := MergedInput(a), RawLetter(MergedInput(a));
    FirstRun(a);
    VerdictOf(m);
    GradedBand(m);
    forall check ensures NotRun(m, l, check) <==> NotRun(a, l, check) { MergedNotRun(a, l, check); }
    forall check
      ensures PendingOf(m, LetterScore(m)) == Some(check) <==> NotRun(m, l, check) && forall j :: Turn(j) < Turn(check) ==> !NotRun(m, l, j)
      ensures PendingOf(m, LetterScore(m)).None? <==> forall j :: !NotRun(m, l, j)
    {
      FirstCheck(m, LetterScore(m), check);
    }
    GradeParts(a, l);
    LetterUnlessPending(m);
    PendingParts(a);
    hide GradeOf, GradeOnceOf, GradeMerged, MergedInput, RawLetter, LetterScore, PendingOf, NotRun, Turn, LookupMatters;
    if GradeOnceOf(a).pending.None? { LookupPendingExact(a); }
  }

  lemma GradedBand(m: Input)
    ensures BandOf(LetterScore(m)) == RawLetter(m) && GradeMerged(m).pending == PendingOf(m, LetterScore(m))
  {
    hide LetterScore, PendingOf, UnreadNames, RowOrder, DecidingOf, RaisingRule;
  }

  lemma PendingParts(a: Input)
    ensures GradeOnceOf(a).pending.Some? ==> GradeOf(a).pending == GradeOnceOf(a).pending && GradeOf(a).letter == None
    ensures GradeOf(a).letter == if GradeOf(a).pending.Some? then None else GradeOnceOf(a).letter
  {
    FirstRun(a);
    LetterUnlessPending(MergedInput(a));
    hide GradeOnceOf, MergedInput, LookupMatters, EstimateMatters;
  }
}
