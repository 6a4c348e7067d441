/** The two extreme re-runs: what they settle about severities nobody has published, and about failed lookups. */
module Sandwich {
  import opened GradeTypes
  import opened Scoring
  import opened Engine
  import opened Evidence
  import opened Letters
  import opened Relations

  function Level(s: Severity): int {
    match s case Low => 0 case Medium => 1 case Unrated => 1 case High => 2 case Critical => 3
  }

  /** The same finding with a severity at least as high; a lookup flag does not score. */
  predicate Worsened(f: Finding, g: Finding) {
    g == f.(severity := g.severity, lookupFailed := g.lookupFailed) && Level(f.severity) <= Level(g.severity)
  }

  lemma WorsenedDominates(r: Row, f: Finding, g: Finding)
    requires Worsened(f, g)
    ensures Dominates(r, f, g)
  {
    var s, t := ScoreFinding(f, r), ScoreFinding(g, r);
    assert s.score <= t.score;
    FinishMonotone(r.testOnly, s.score, s.tier == TierCalled && f.exploited, t.score, t.tier == TierCalled && g.exploited);
    BandMonotone(AloneScore(r, f), AloneScore(r, g));
  }

  lemma SeverityMonotone(a: Input, b: Input)
    requires InputRel(a, b, Worsened)
    ensures AtLeast(RawLetter(b), RawLetter(a))
  {
    forall r, f, g | Worsened(f, g) ensures Dominates(r, f, g) { WorsenedDominates(r, f, g); }
    assert RowDominated(a.self, b.self);
    assert forall i :: 0 <= i < |a.deps| ==> RowRel(a.deps[i], b.deps[i], Worsened) ==> RowDominated(a.deps[i], b.deps[i]);
    LetterGrows(a, b);
  }

  /** A letter that both ends share is the letter of everything between them. */
  lemma Squeeze(low: Input, mid: Input, high: Input, letter: Letter)
    requires InputRel(low, mid, Worsened) && InputRel(mid, high, Worsened)
    requires GradeMerged(low).letter == Some(letter) && GradeMerged(high).letter == Some(letter)
    ensures GradeMerged(mid).letter == Some(letter)
  {
    VerdictOf(low);
    VerdictOf(mid);
    VerdictOf(high);
    SeverityMonotone(low, mid);
    SeverityMonotone(mid, high);
    SameRank(RawLetter(mid), letter);
    PendingIgnoresFindings(low, mid, Worsened, LetterScore(low), LetterScore(mid));
  }

  // ---- Substituted inputs ----

  lemma MappedRel(input: Input, g: Finding -> Finding, rel: (Finding, Finding) -> bool)
    requires forall f :: rel(f, g(f))
    ensures InputRel(input, MapInput(input, g), rel)
  {
  }

  lemma MappedClean(input: Input, g: Finding -> Finding)
    requires Clean(input) && forall f :: SameAdvisory(f, g(f))
    ensures Clean(MapInput(input, g)) && GradeOnceOf(MapInput(input, g)) == GradeMerged(MapInput(input, g))
  {
    MappedRel(input, g, SameAdvisory);
    SameAdvisoryKeepsClean(input, MapInput(input, g));
    CleanStaysMerged(MapInput(input, g));
  }

  /** An assignment of published severities to the findings that have none; the lookup flag may be cleared with it. */
  predicate Publishes(f: Finding, g: Finding) {
    if f.severity == Unrated then g == f.(severity := g.severity, lookupFailed := g.lookupFailed) && g.severity != Unrated
    else g == f
  }

  /** An answer to every lookup that failed. */
  predicate Answers(f: Finding, g: Finding) {
    if f.lookupFailed then g == f.(severity := g.severity, lookupFailed := g.lookupFailed) && g.severity != Unrated
    else g == f
  }

  /** The two substitutions are below and above everything the relation allows, and change only severities. */
  ghost predicate Brackets(rel: (Finding, Finding) -> bool, low: Finding -> Finding, high: Finding -> Finding) {
    && (forall f, g :: rel(f, g) ==> Worsened(low(f), g) && Worsened(g, high(f)) && SameAdvisory(f, g))
    && forall f :: SameAdvisory(f, low(f)) && SameAdvisory(f, high(f))
  }

  lemma AnswersBracketed()
    ensures Brackets(Answers, FailedAs(Low), FailedAs(Critical))
  {
    forall f, g | Answers(f, g)
      ensures Worsened(FailedAs(Low)(f), g) && Worsened(g, FailedAs(Critical)(f)) && SameAdvisory(f, g) {}
  }

  lemma PublishesBracketed()
    ensures Brackets(Publishes, EstimatedAs(Low), EstimatedAs(Critical))
  {
    forall f, g | Publishes(f, g)
      ensures Worsened(EstimatedAs(Low)(f), g) && Worsened(g, EstimatedAs(Critical)(f)) && SameAdvisory(f, g) {}
  }

  /** Every related pair lies between the LOW and the CRITICAL substitution. */
  lemma Between(a: Input, b: Input, rel: (Finding, Finding) -> bool, low: Finding -> Finding, high: Finding -> Finding)
    requires InputRel(a, b, rel)
    requires Brackets(rel, low, high)
    ensures InputRel(MapInput(a, low), b, Worsened) && InputRel(b, MapInput(a, high), Worsened)
  {
    BetweenRow(a.self, b.self, rel, low, high);
    forall i | 0 <= i < |a.deps|
      ensures RowRel(MapInput(a, low).deps[i], b.deps[i], Worsened) && RowRel(b.deps[i], MapInput(a, high).deps[i], Worsened)
    {
      BetweenRow(a.deps[i], b.deps[i], rel, low, high);
    }
  }

  lemma BetweenRow(a: Row, b: Row, rel: (Finding, Finding) -> bool, low: Finding -> Finding, high: Finding -> Finding)
    requires RowRel(a, b, rel)
    requires Brackets(rel, low, high)
    ensures RowRel(MapRow(a, low), b, Worsened) && RowRel(b, MapRow(a, high), Worsened)
  {
    forall j | 0 <= j < |a.findings|
      ensures Worsened(MapRow(a, low).findings[j], b.findings[j]) && Worsened(b.findings[j], MapRow(a, high).findings[j])
    {
      assert rel(a.findings[j], b.findings[j]);
    }
  }

  lemma RelatedKeepsMerged(a: Input, b: Input, rel: (Finding, Finding) -> bool)
    requires Clean(a) && InputRel(a, b, rel) && forall f, g :: rel(f, g) ==> SameAdvisory(f, g)
    ensures Clean(b) && GradeOnceOf(b) == GradeMerged(b)
  {
    assert RowRel(a.self, b.self, SameAdvisory);
    forall i | 0 <= i < |a.deps| ensures RowRel(a.deps[i], b.deps[i], SameAdvisory) {
      assert RowRel(a.deps[i], b.deps[i], rel);
    }
    SameAdvisoryKeepsClean(a, b);
    CleanStaysMerged(b);
  }

  /** When both substitutions keep the letter, every assignment between them does. */
  lemma ExtremesSettle(a: Input, b: Input, rel: (Finding, Finding) -> bool, low: Finding -> Finding,
                       high: Finding -> Finding, letter: Letter)
    requires Clean(a) && InputRel(a, b, rel)
    requires Brackets(rel, low, high)
    requires SameLetter(MapInput(a, low), Some(letter)) && SameLetter(MapInput(a, high), Some(letter))
    ensures GradeOnceOf(b).letter == Some(letter)
  {
    Between(a, b, rel, low, high);
    MappedClean(a, low);
    MappedClean(a, high);
    RelatedKeepsMerged(a, b, rel);
    Squeeze(MapInput(a, low), b, MapInput(a, high), letter);
  }

  lemma LetterUnlessPending(input: Input)
    ensures GradeOnceOf(input).pending.None? <==> GradeOnceOf(input).letter.Some?
    ensures GradeOnceOf(input).pending != Some(SeverityLookup)
  {
  }

  /** Grade gives a letter exactly when its first run does and no failed lookup could change it. */
  lemma GradeParts(a: Input, l: Letter)
    ensures GradeOf(a).letter == Some(l) <==>
      GradeOnceOf(MergedInput(a)).letter == Some(l) && !LookupMatters(MergedInput(a), Some(l))
  {
    LetterUnlessPending(MergedInput(a));
    hide GradeOnceOf, MergedInput, LookupMatters, EstimateMatters;
  }

  // ---- What the lookups settle ----

  lemma NoneFailedNothingToAnswer(a: Input, b: Input)
    requires InputRel(a, b, Answers) && !HasFailed(a)
    ensures a == b
  {
    RowsRelated(a, b, Answers);
    forall i | 0 <= i < |RowsOf(a)| ensures RowsOf(a)[i] == RowsOf(b)[i] {
      var r, s := RowsOf(a)[i], RowsOf(b)[i];
      assert r in RowsOf(a);
      forall j | 0 <= j < |r.findings| ensures r.findings[j] == s.findings[j] { assert r.findings[j] in r.findings; }
      assert r.findings == s.findings;
    }
    assert RowsOf(a) == RowsOf(b);
    assert a.self == RowsOf(a)[0] && a.deps == RowsOf(a)[1..] && b.deps == RowsOf(b)[1..];
  }

  lemma NoneUnratedNothingToPublish(a: Input, b: Input)
    requires InputRel(a, b, Publishes) && !HasEstimated(a)
    ensures a == b
  {
    RowsRelated(a, b, Publishes);
    forall i | 0 <= i < |RowsOf(a)| ensures RowsOf(a)[i] == RowsOf(b)[i] {
      var r, s := RowsOf(a)[i], RowsOf(b)[i];
      assert r in RowsOf(a);
      forall j | 0 <= j < |r.findings| ensures r.findings[j] == s.findings[j] { assert r.findings[j] in r.findings; }
      assert r.findings == s.findings;
    }
    assert RowsOf(a) == RowsOf(b);
    assert a.self == RowsOf(a)[0] && a.deps == RowsOf(a)[1..] && b.deps == RowsOf(b)[1..];
  }

  lemma LookupSettled(a: Input, b: Input, letter: Letter)
    requires Clean(a) && GradeOnceOf(a).letter == Some(letter) && !LookupMatters(a, Some(letter))
    requires InputRel(a, b, Answers)
    ensures GradeOnceOf(b).letter == Some(letter)
  {
    if HasFailed(a) {
      AnswersBracketed();
      ExtremesSettle(a, b, Answers, FailedAs(Low), FailedAs(Critical), letter);
    } else {
      NoneFailedNothingToAnswer(a, b);
    }
  }

  lemma LookupWitness(a: Input, letter: Option<Letter>) returns (b: Input)
    requires LookupMatters(a, letter)
    ensures InputRel(a, b, Answers) && GradeOnceOf(b).letter != letter
  {
    var sev := if SameLetter(WithLookupSeverity(a, Low), letter) then Critical else Low;
    b := WithLookupSeverity(a, sev);
    hide GradeOnceOf;
    MappedRel(a, FailedAs(sev), Answers);
  }

  /** severity_lookup is exact: the letter is withheld for a failed lookup if and only if some answer to the failed lookups
      would change it. So a letter that is given, starred or not, is the letter of every possible answer. */
  lemma LookupPendingExact(input: Input)
    requires GradeOnceOf(input).pending.None?
    ensures GradeOf(input).pending == Some(SeverityLookup) <==>
      exists b :: InputRel(MergedInput(input), b, Answers) && GradeOnceOf(b).letter != GradeOnceOf(input).letter
    ensures GradeOf(input).pending.None? || GradeOf(input).pending == Some(SeverityLookup)
  {
    FirstRun(input);
    MergedIsClean(input);
    LetterUnlessPending(input);
    var a, letter := MergedInput(input), GradeOnceOf(input).letter;
    if LookupMatters(a, letter) {
      var b := LookupWitness(a, letter);
    } else {
      forall b | InputRel(a, b, Answers) ensures GradeOnceOf(b).letter == letter { LookupSettled(a, b, letter.value); }
    }
  }

  lemma EstimateSettled(a: Input, b: Input, letter: Letter)
    requires Clean(a) && GradeOnceOf(a).letter == Some(letter) && !EstimateMatters(a, Some(letter))
    requires InputRel(a, b, Publishes)
    ensures GradeOnceOf(b).letter == Some(letter)
  {
    if HasEstimated(a) {
      PublishesBracketed();
      ExtremesSettle(a, b, Publishes, EstimatedAs(Low), EstimatedAs(Critical), letter);
    } else {
      NoneUnratedNothingToPublish(a, b);
    }
  }

  lemma EstimateWitness(a: Input, letter: Option<Letter>) returns (b: Input)
    requires EstimateMatters(a, letter)
    ensures InputRel(a, b, Publishes) && GradeOnceOf(b).letter != letter
  {
    var sev := if SameLetter(WithEstimatedSeverity(a, Low), letter) then Critical else Low;
    b := WithEstimatedSeverity(a, sev);
    hide GradeOnceOf;
    MappedRel(a, EstimatedAs(sev), Publishes);
  }

  /** The star is exact: a letter is marked as estimated if and only if some assignment of published severities to the
      findings without one would change it. */
  lemma EstimatedExact(input: Input)
    requires GradeOf(input).pending.None?
    ensures GradeOf(input).letter == GradeOnceOf(input).letter && GradeOf(input).letter.Some?
    ensures GradeOf(input).estimated <==>
      exists b :: InputRel(MergedInput(input), b, Publishes) && GradeOnceOf(b).letter != GradeOf(input).letter
  {
    FirstRun(input);
    MergedIsClean(input);
    LetterUnlessPending(input);
    var a, letter := MergedInput(input), GradeOnceOf(input).letter;
    if EstimateMatters(a, letter) {
      var b := EstimateWitness(a, letter);
    } else {
      forall b | InputRel(a, b, Publishes) ensures GradeOnceOf(b).letter == letter { EstimateSettled(a, b, letter.value); }
    }
  }

  // ---- Seen from a later grade ----

  lemma AllPublished(a: Input, b: Input)
    requires InputRel(a, b, Publishes)
    ensures !HasEstimated(b)
  {
    RowsRelated(a, b, Publishes);
    forall s, g | s in RowsOf(b) && g in s.findings ensures g.severity != Unrated {
      var i :| 0 <= i < |RowsOf(b)| && RowsOf(b)[i] == s;
      var j :| 0 <= j < |s.findings| && s.findings[j] == g;
      assert Publishes(RowsOf(a)[i].findings[j], g);
    }
  }

  /** An unstarred letter is final: once every severity is published, whatever they are, and no lookup is left failed,
      Grade gives the same letter, unstarred. */
  lemma UnstarredLetterIsFinal(input: Input, b: Input)
    requires GradeOf(input).pending.None? && !GradeOf(input).estimated
    requires InputRel(MergedInput(input), b, Publishes) && !HasFailed(b)
    ensures GradeOf(b).letter == GradeOf(input).letter && GradeOf(b).pending.None? && !GradeOf(b).estimated
  {
    EstimatedExact(input);
    MergedIsClean(input);
    RelatedKeepsMerged(MergedInput(input), b, Publishes);
    AllPublished(MergedInput(input), b);
    FirstRun(b);
    assert MergedInput(b) == b by { SameAdvisoryKeeps(MergedInput(input), b); }
  }

  lemma SameAdvisoryKeeps(a: Input, b: Input)
    requires Clean(a) && InputRel(a, b, Publishes)
    ensures MergedInput(b) == b
  {
    RelatedKeepsMerged(a, b, Publishes);
    CleanStaysMerged(b);
  }
}
