/** Exactly when the called pass cannot change the letter, through the merge and Grade's re-runs. */
module PassExact {
  import opened GradeTypes
  import opened Ordering
  import opened Scoring
  import opened Dedupe
  import opened DedupeLaws
  import opened Tree
  import opened PendingRule
  import opened Engine
  import opened Evidence
  import opened Letters
  import opened Relations
  import opened Sandwich
  import opened CalledPass
  import opened ArchivedUnread
  import opened Promotion
  import opened SkippedPass

  // ---- Promoting everything, before and after the merge ----

  lemma UpGroup(fs: seq<Finding>, gs: seq<Finding>, i: int)
    requires |fs| == |gs| && 0 <= i < |fs| && forall j :: 0 <= j < |fs| ==> gs[j] == UpFinding(fs[j])
    ensures Mute(UpFinding(GroupValue(fs, i)), GroupValue(gs, i))
  {
    hide GroupValue, Class;
    forall j | 0 <= j < |fs| ensures Promotes(fs[j], gs[j]) {}
    LiftsGroup(fs, gs, i);
    GroupIsTop(gs, i);
    if GroupValue(gs, i).reach == Imported {
      var g :| g in Class(gs, i) && g.reach == Imported;
      ClassMember(gs, i, g);
      assert false;
    }
  }

  lemma UpMergedRow(r: Row)
    ensures RowRel(UpRow(MergedRow(r)), MergedRow(UpRow(r)), Mute)
  {
    var fs, gs := r.findings, UpRow(r).findings;
    assert SameIds(fs, gs);
    SameIdsSameLeaders(fs, gs, |fs|);
    hide GroupValue, Mute, UpFinding, SameIds;
    var l := LeadersUpTo(fs, |fs|);
    forall k | 0 <= k < |l| ensures Mute(UpFinding(Merged(fs)[k]), Merged(gs)[k]) {
      assert l[k] in l;
      UpGroup(fs, gs, l[k]);
    }
  }

  /** Merging what was promoted and promoting what was merged differ in undetermined tiers at most. */
  lemma UpMerged(a: Input)
    ensures RawLetter(MergedInput(UpInput(a))) == RawLetter(UpInput(MergedInput(a)))
  {
    var m, n := UpInput(MergedInput(a)), MergedInput(UpInput(a));
    hide UpRow, MergedRow, RawLetter, Mute;
    forall i | 0 <= i < |m.deps| ensures RowRel(m.deps[i], n.deps[i], Mute) { UpMergedRow(a.deps[i]); }
    MuteItself(m.self);
    MuteSameLetter(m, n);
  }

  /** No outcome of the called pass changes the letter of the rows if and only if the merged input is settled. */
  lemma PromotionExact(a: Input)
    requires a.self.isSelf
    ensures (forall b :: Promoted(a, b) ==> RawLetter(MergedInput(b)) == RawLetter(MergedInput(a))) <==> Settled(MergedInput(a))
  {
    UpExact(MergedInput(a));
    UpMerged(a);
    UpIsPromoted(a);
    hide RawLetter, MergedInput, UpInput, Promoted, Settled;
    if Settled(MergedInput(a)) {
      forall b | Promoted(a, b) ensures RawLetter(MergedInput(b)) == RawLetter(MergedInput(a)) {
        PromotedMerged(a, b);
        SettledKeeps(MergedInput(a), MergedInput(b));
      }
    }
  }

  lemma SettledKeeps(m: Input, n: Input)
    requires m.self.isSelf && Settled(m) && Lifted(m, n)
    ensures RawLetter(n) == RawLetter(m)
  {
    hide RawLetter, UpInput, Settled, Lifted;
    UpExact(m);
    LiftedBetween(m, n);
    AtLeastBothWays(RawLetter(n), RawLetter(m));
  }

  // ---- Grade's re-runs ----

  /** The findings a re-run rates: those with a failed lookup, or all that nobody published a severity for. */
  predicate Flagged(est: bool, f: Finding) { if est then f.severity == Unrated else f.lookupFailed }

  function Rated(est: bool, f: Finding, sev: Severity): Finding { if Flagged(est, f) then f.(severity := sev) else f }

  function Rerun(est: bool, m: Input, sev: Severity): Input {
    if est then WithEstimatedSeverity(m, sev) else WithLookupSeverity(m, sev)
  }

  /** Only unrated findings have failed lookups, and an imported finding of a dependency is rated. */
  ghost predicate RatingsApart(m: Input) {
    && (forall d, f :: d in m.deps && f in d.findings && f.reach == Imported ==> f.severity != Unrated)
    && forall r, f :: r in RowsOf(m) && f in r.findings && f.lookupFailed ==> f.severity == Unrated
  }

  lemma RerunPlaces(est: bool, m: Input, sev: Severity, i: int)
    requires 0 <= i < |RowsOf(m)|
    ensures var w := RowsOf(Rerun(est, m, sev));
      && |w| == |RowsOf(m)| && w[i] == RowsOf(m)[i].(findings := w[i].findings)
      && |w[i].findings| == |RowsOf(m)[i].findings|
      && forall j :: 0 <= j < |w[i].findings| ==> w[i].findings[j] == Rated(est, RowsOf(m)[i].findings[j], sev)
  {
  }

  lemma RerunSize(est: bool, m: Input, sev: Severity)
    ensures |RowsOf(Rerun(est, m, sev))| == |RowsOf(m)|
    ensures Rerun(est, m, sev).checksumMismatch == m.checksumMismatch
  {
  }

  /** A finding of a re-run, and the one it was. */
  lemma RerunFrom(est: bool, m: Input, sev: Severity, s: Row, g: Finding) returns (r: Row, f: Finding)
    requires s in RowsOf(Rerun(est, m, sev)) && g in s.findings
    ensures r in RowsOf(m) && f in r.findings && s == r.(findings := s.findings) && g == Rated(est, f, sev)
  {
    hide Rated, Rerun, RowsOf;
    var w := RowsOf(Rerun(est, m, sev));
    var i :| 0 <= i < |w| && w[i] == s;
    var j :| 0 <= j < |s.findings| && s.findings[j] == g;
    RerunSize(est, m, sev);
    RerunPlaces(est, m, sev, i);
    r, f := RowsOf(m)[i], RowsOf(m)[i].findings[j];
  }

  lemma RerunTo(est: bool, m: Input, sev: Severity, r: Row, f: Finding) returns (s: Row)
    requires r in RowsOf(m) && f in r.findings
    ensures s in RowsOf(Rerun(est, m, sev)) && s == r.(findings := s.findings) && Rated(est, f, sev) in s.findings
  {
    hide Rated, Rerun, RowsOf;
    var i :| 0 <= i < |RowsOf(m)| && RowsOf(m)[i] == r;
    var j :| 0 <= j < |r.findings| && r.findings[j] == f;
    RerunPlaces(est, m, sev, i);
    s := RowsOf(Rerun(est, m, sev))[i];
    assert s.findings[j] == Rated(est, f, sev);
  }

  lemma RerunUpkeep(est: bool, m: Input, sev: Severity, l: Letter)
    ensures UpkeepEvidence(Rerun(est, m, sev), l) <==> UpkeepEvidence(m, l)
  {
    var w := Rerun(est, m, sev);
    hide Rated, Rerun, RowsOf, RowUpkeep;
    RerunSize(est, m, sev);
    forall i | 0 <= i < |RowsOf(m)| ensures RowUpkeep(RowsOf(w)[i]) == RowUpkeep(RowsOf(m)[i]) {
      RerunPlaces(est, m, sev, i);
      UpkeepReadsFlags(RowsOf(m)[i], RowsOf(w)[i]);
    }
  }

  lemma UpkeepReadsFlags(r: Row, s: Row)
    requires s == r.(findings := s.findings)
    ensures RowUpkeep(s) == RowUpkeep(r)
  {
  }

  // ---- Promotion leaves the rated findings alone ----

  lemma LiftedFrom(n: Input, w: Input, s: Row, g: Finding) returns (r: Row, f: Finding)
    requires Lifted(n, w) && s in RowsOf(w) && g in s.findings
    ensures r in RowsOf(n) && f in r.findings && Lifts(f, g) && s == r.(findings := s.findings) && (s == n.self || r in n.deps)
  {
    hide Lifts;
    if s == w.self {
      r, f := n.self, g;
      LiftsItself(g);
      assert RowsOf(n)[0] == n.self;
    } else {
      var i :| 0 <= i < |w.deps| && w.deps[i] == s;
      var j :| 0 <= j < |s.findings| && s.findings[j] == g;
      assert RowRel(n.deps[i], s, Lifts);
      r, f := n.deps[i], n.deps[i].findings[j];
      assert RowsOf(n)[i + 1] == r;
    }
  }

  lemma LiftsItself(f: Finding)
    ensures Lifts(f, f)
  {
  }

  /** A flagged finding was not imported, so promotion moved its tier at most from undetermined to called. */
  lemma FlaggedTwin(est: bool, n: Input, w: Input, s: Row, g: Finding) returns (r: Row, f: Finding)
    requires n.self.isSelf && RatingsApart(n) && Lifted(n, w) && s in RowsOf(w) && g in s.findings && Flagged(est, g)
    ensures r in RowsOf(n) && f in r.findings && Flagged(est, f) && g.severity == Unrated
    ensures forall sev :: Alone(s, g.(severity := sev)) == Alone(r, f.(severity := sev))
    ensures ScoreFinding(g, s).tier != TierImported
  {
    r, f := LiftedFrom(n, w, s, g);
    SameTierTwin(r, s, f, g);
  }

  lemma SameTierTwin(r: Row, s: Row, f: Finding, g: Finding)
    requires Lifts(f, g) && s == r.(findings := s.findings) && (f.reach == Imported ==> r.isSelf)
    ensures forall sev :: Alone(s, g.(severity := sev)) == Alone(r, f.(severity := sev))
    ensures ScoreFinding(g, s).tier != TierImported
  {
    assert TierOf(f.reach, r.isSelf) == TierOf(g.reach, s.isSelf);
    forall sev ensures AloneScore(s, g.(severity := sev)) == AloneScore(r, f.(severity := sev)) {}
  }

  lemma UnratedCountsNothing(r: Row, f: Finding)
    requires f.severity == Unrated
    ensures !CountsCalled(r, f) && !CountsReached(r, f)
  {
  }

  lemma LowKeepsKeys(est: bool, w: Input)
    requires forall r, f :: r in RowsOf(w) && f in r.findings && Flagged(est, f) ==> f.severity == Unrated
    ensures CalledKeys(RowsOf(w)) <= CalledKeys(RowsOf(Rerun(est, w, Low)))
    ensures ReachedKeys(RowsOf(w)) <= ReachedKeys(RowsOf(Rerun(est, w, Low)))
  {
    hide CountsCalled, CountsReached, Rerun, RowsOf, Flagged;
    forall k | k in CalledKeys(RowsOf(w)) ensures k in CalledKeys(RowsOf(Rerun(est, w, Low))) {
      var r, f :| r in RowsOf(w) && f in r.findings && CountsCalled(r, f) && k == Key(r.module_, f.id);
      if Flagged(est, f) { UnratedCountsNothing(r, f); }
      var s := RerunTo(est, w, Low, r, f);
      FlagsOnly(r, s, f);
    }
    forall k | k in ReachedKeys(RowsOf(w)) ensures k in ReachedKeys(RowsOf(Rerun(est, w, Low))) {
      var r, f :| r in RowsOf(w) && f in r.findings && CountsReached(r, f) && k == Key(r.module_, f.id);
      if Flagged(est, f) { UnratedCountsNothing(r, f); }
      var s := RerunTo(est, w, Low, r, f);
      FlagsOnly(r, s, f);
    }
  }

  lemma FlaggedAreUnrated(est: bool, n: Input, w: Input)
    requires Lifted(n, w) && RatingsApart(n)
    ensures forall s, g :: s in RowsOf(w) && g in s.findings && Flagged(est, g) ==> g.severity == Unrated
  {
    forall s, g | s in RowsOf(w) && g in s.findings && Flagged(est, g) ensures g.severity == Unrated {
      var r, f := LiftedFrom(n, w, s, g);
    }
  }

  /** What the LOW re-run of a promoted input loses, the input before its promotion had. */
  lemma LowEvidence(est: bool, n: Input, w: Input, l: Letter)
    requires n.self.isSelf && RatingsApart(n) && Lifted(n, w) && HasEvidence(w, l)
    ensures HasEvidence(Rerun(est, w, Low), l) || HasEvidence(n, l)
  {
    var v := Rerun(est, w, Low);
    hide Rerun, RowsOf, Flagged, Alone, RatingsApart, Lifted, CalledKeys, ReachedKeys, UpkeepEvidence;
    RerunUpkeep(est, w, Low, l);
    RerunSize(est, w, Low);
    FlaggedAreUnrated(est, n, w);
    LowKeepsKeys(est, w);
    SubsetCount(CalledKeys(RowsOf(w)), CalledKeys(RowsOf(v)));
    SubsetCount(ReachedKeys(RowsOf(w)), ReachedKeys(RowsOf(v)));
    if FindingEvidence(w, l) { LowFinding(est, n, w, l); }
    hide FindingEvidence;
  }

  lemma LowFinding(est: bool, n: Input, w: Input, l: Letter)
    requires n.self.isSelf && RatingsApart(n) && Lifted(n, w) && FindingEvidence(w, l)
    ensures FindingEvidence(Rerun(est, w, Low), l) || FindingEvidence(n, l)
  {
    hide Rerun, RowsOf, Flagged, Alone, RatingsApart, Lifted;
    var s :| s in RowsOf(w) && SomeAlone(s, l);
    var g :| g in s.findings && AtLeast(Alone(s, g), l);
    if Flagged(est, g) {
      var r, f := FlaggedTwin(est, n, w, s, g);
      FlaggedIsUnrated(est, n, r, f);
      assert g.(severity := Unrated) == g && f.(severity := Unrated) == f;
      assert SomeAlone(r, l);
    } else {
      var v := RerunTo(est, w, Low, s, g);
      SameAlone(s, v, g);
      assert SomeAlone(v, l);
    }
  }

  lemma SameAlone(r: Row, s: Row, f: Finding)
    requires s == r.(findings := s.findings)
    ensures Alone(s, f) == Alone(r, f)
  {
  }

  lemma FlaggedIsUnrated(est: bool, n: Input, r: Row, f: Finding)
    requires RatingsApart(n) && r in RowsOf(n) && f in r.findings && Flagged(est, f)
    ensures f.severity == Unrated
  {
  }

  // ---- The CRITICAL re-run ----

  lemma CriticalFinding(est: bool, n: Input, w: Input, l: Letter)
    requires n.self.isSelf && RatingsApart(n) && Lifted(n, w) && FindingEvidence(Rerun(est, w, Critical), l)
    ensures FindingEvidence(w, l) || FindingEvidence(Rerun(est, n, Critical), l)
  {
    hide Rerun, RowsOf, Flagged, Alone, RatingsApart, Lifted;
    var s1 :| s1 in RowsOf(Rerun(est, w, Critical)) && SomeAlone(s1, l);
    var g1 :| g1 in s1.findings && AtLeast(Alone(s1, g1), l);
    var s, g := RerunFrom(est, w, Critical, s1, g1);
    SameAlone(s, s1, g1);
    if Flagged(est, g) {
      var r, f := FlaggedTwin(est, n, w, s, g);
      var v := RerunTo(est, n, Critical, r, f);
      SameAlone(r, v, f.(severity := Critical));
      assert Rated(est, f, Critical) == f.(severity := Critical) && g1 == g.(severity := Critical);
      assert SomeAlone(v, l);
    } else {
      assert SomeAlone(s, l);
    }
  }

  lemma ReachedCriticalIsF(s: Row, g: Finding)
    requires CountsReached(s, g) && g.severity == Critical && ScoreFinding(g, s).tier != TierImported
    ensures Alone(s, g) == LetterF
  {
  }

  lemma SeverityKeepsTier(s: Row, g: Finding, sev: Severity)
    ensures ScoreFinding(g.(severity := sev), s).tier == ScoreFinding(g, s).tier
  {
  }

  /** A flagged finding that counts once it is critical is called, and makes an F by itself. */
  lemma CriticalCounts(est: bool, n: Input, w: Input, s1: Row, g1: Finding)
    requires n.self.isSelf && RatingsApart(n) && Lifted(n, w)
    requires s1 in RowsOf(Rerun(est, w, Critical)) && g1 in s1.findings && CountsReached(s1, g1)
    ensures FindingEvidence(Rerun(est, w, Critical), LetterF) || Key(s1.module_, g1.id) in ReachedKeys(RowsOf(w))
    ensures FindingEvidence(Rerun(est, w, Critical), LetterF) || (CountsCalled(s1, g1) ==> Key(s1.module_, g1.id) in CalledKeys(RowsOf(w)))
  {
    hide Rerun, RowsOf, Flagged, Alone, RatingsApart, Lifted, CountsReached, CountsCalled, ScoreFinding;
    var s, g := RerunFrom(est, w, Critical, s1, g1);
    if Flagged(est, g) {
      var r, f := FlaggedTwin(est, n, w, s, g);
      SeverityKeepsTier(s, g, Critical);
      FlagsTier(s, s1, g1);
      ReachedCriticalIsF(s1, g1);
      assert SomeAlone(s1, LetterF);
    } else {
      FlagsOnly(s, s1, g1);
    }
  }

  lemma FlagsTier(r: Row, s: Row, f: Finding)
    requires s == r.(findings := s.findings)
    ensures ScoreFinding(f, s).tier == ScoreFinding(f, r).tier
  {
  }

  lemma CriticalKeys(est: bool, n: Input, w: Input)
    requires n.self.isSelf && RatingsApart(n) && Lifted(n, w) && !FindingEvidence(Rerun(est, w, Critical), LetterF)
    ensures CalledKeys(RowsOf(Rerun(est, w, Critical))) <= CalledKeys(RowsOf(w))
    ensures ReachedKeys(RowsOf(Rerun(est, w, Critical))) <= ReachedKeys(RowsOf(w))
  {
    var v := Rerun(est, w, Critical);
    hide Rerun, RowsOf, RatingsApart, Lifted, FindingEvidence, CountsReached, CountsCalled;
    forall k | k in CalledKeys(RowsOf(v)) ensures k in CalledKeys(RowsOf(w)) {
      var s, g :| s in RowsOf(v) && g in s.findings && CountsCalled(s, g) && k == Key(s.module_, g.id);
      CalledIsReached(s, g);
      CriticalCounts(est, n, w, s, g);
    }
    forall k | k in ReachedKeys(RowsOf(v)) ensures k in ReachedKeys(RowsOf(w)) {
      var s, g :| s in RowsOf(v) && g in s.findings && CountsReached(s, g) && k == Key(s.module_, g.id);
      CriticalCounts(est, n, w, s, g);
    }
  }

  lemma CalledIsReached(r: Row, f: Finding)
    requires CountsCalled(r, f)
    ensures CountsReached(r, f)
  {
  }

  /** What the CRITICAL re-run of a promoted input gains, the re-run before the promotion gains too. */
  lemma CriticalEvidence(est: bool, n: Input, w: Input, l: Letter)
    requires n.self.isSelf && RatingsApart(n) && Lifted(n, w) && HasEvidence(Rerun(est, w, Critical), l)
    ensures HasEvidence(w, l) || HasEvidence(Rerun(est, n, Critical), l)
  {
    var v := Rerun(est, w, Critical);
    hide Rerun, RowsOf, RatingsApart, Lifted, FindingEvidence, UpkeepEvidence, CalledKeys, ReachedKeys;
    RerunUpkeep(est, w, Critical, l);
    RerunSize(est, w, Critical);
    if FindingEvidence(v, LetterF) { FindingEvidenceDown(v, l); }
    if FindingEvidence(v, l) {
      CriticalFinding(est, n, w, l);
    } else {
      CriticalKeys(est, n, w);
      SubsetCount(CalledKeys(RowsOf(v)), CalledKeys(RowsOf(w)));
      SubsetCount(ReachedKeys(RowsOf(v)), ReachedKeys(RowsOf(w)));
    }
  }
  // ---- The re-runs of a promoted input ----

  lemma RerunRow(est: bool, r: Row, s: Row, sev: Severity)
    requires RowRel(r, s, Lifts)
    ensures est ==> RowRel(MapRow(r, EstimatedAs(sev)), MapRow(s, EstimatedAs(sev)), Lifts)
    ensures !est ==> RowRel(MapRow(r, FailedAs(sev)), MapRow(s, FailedAs(sev)), Lifts)
  {
    forall j | 0 <= j < |r.findings|
      ensures Lifts(RateEstimated(r.findings[j], sev), RateEstimated(s.findings[j], sev))
      ensures Lifts(RateFailed(r.findings[j], sev), RateFailed(s.findings[j], sev))
    {
      assert Lifts(r.findings[j], s.findings[j]);
    }
  }

  lemma RerunsLifted(est: bool, n: Input, w: Input, sev: Severity)
    requires Lifted(n, w)
    ensures Lifted(Rerun(est, n, sev), Rerun(est, w, sev))
  {
    var x, y := Rerun(est, n, sev), Rerun(est, w, sev);
    assert x.deps == seq(|n.deps|, i requires 0 <= i < |n.deps| => MapRow(n.deps[i], if est then EstimatedAs(sev) else FailedAs(sev)));
    assert y.deps == seq(|w.deps|, i requires 0 <= i < |w.deps| => MapRow(w.deps[i], if est then EstimatedAs(sev) else FailedAs(sev)));
    forall i | 0 <= i < |n.deps| ensures RowRel(x.deps[i], y.deps[i], Lifts) { RerunRow(est, n.deps[i], w.deps[i], sev); }
  }

  lemma RatedIsBracketed(est: bool, f: Finding)
    requires Flagged(est, f) ==> f.severity == Unrated
    ensures Worsened(Rated(est, f, Low), f) && Worsened(f, Rated(est, f, Critical))
  {
  }

  /** The two re-runs are below and above the first run. */
  lemma RerunsBracket(est: bool, w: Input)
    requires forall r, f :: r in RowsOf(w) && f in r.findings && Flagged(est, f) ==> f.severity == Unrated
    ensures AtLeast(RawLetter(w), RawLetter(Rerun(est, w, Low))) && AtLeast(RawLetter(Rerun(est, w, Critical)), RawLetter(w))
  {
    hide RawLetter, Worsened, Flagged, RowsOf;
    forall i | 0 <= i < |RowsOf(w)|
      ensures RowRel(RowsOf(Rerun(est, w, Low))[i], RowsOf(w)[i], Worsened)
      ensures RowRel(RowsOf(w)[i], RowsOf(Rerun(est, w, Critical))[i], Worsened)
      ensures |RowsOf(Rerun(est, w, Low))| == |RowsOf(Rerun(est, w, Critical))| == |RowsOf(w)|
    {
      BracketRow(est, w, i);
    }
    RowsMakeInput(est, w, Low);
    RowsMakeInput(est, w, Critical);
    SeverityMonotone(Rerun(est, w, Low), w);
    SeverityMonotone(w, Rerun(est, w, Critical));
  }

  lemma BracketRow(est: bool, w: Input, i: int)
    requires forall r, f :: r in RowsOf(w) && f in r.findings && Flagged(est, f) ==> f.severity == Unrated
    requires 0 <= i < |RowsOf(w)|
    ensures |RowsOf(Rerun(est, w, Low))| == |RowsOf(Rerun(est, w, Critical))| == |RowsOf(w)|
    ensures RowRel(RowsOf(Rerun(est, w, Low))[i], RowsOf(w)[i], Worsened)
    ensures RowRel(RowsOf(w)[i], RowsOf(Rerun(est, w, Critical))[i], Worsened)
  {
    RerunPlaces(est, w, Low, i);
    RerunPlaces(est, w, Critical, i);
    hide Rerun, RowsOf, Flagged, Rated, Worsened;
    var r := RowsOf(w)[i];
    assert r in RowsOf(w);
    forall j | 0 <= j < |r.findings|
      ensures Worsened(Rated(est, r.findings[j], Low), r.findings[j]) && Worsened(r.findings[j], Rated(est, r.findings[j], Critical))
    {
      assert r.findings[j] in r.findings;
      RatedIsBracketed(est, r.findings[j]);
    }
  }

  lemma RowsMakeInput(est: bool, w: Input, sev: Severity)
    ensures var v := Rerun(est, w, sev);
      && v == w.(self := v.self, deps := v.deps) && |v.deps| == |w.deps|
      && RowsOf(v)[0] == v.self && RowsOf(w)[0] == w.self
      && forall i :: 0 <= i < |w.deps| ==> RowsOf(v)[i + 1] == v.deps[i] && RowsOf(w)[i + 1] == w.deps[i]
  {
  }

  /** Re-runs that keep the letter keep it after every promotion too. */
  lemma RerunsCarry(est: bool, n: Input, w: Input)
    requires n.self.isSelf && RatingsApart(n) && Lifted(n, w)
    requires RawLetter(Rerun(est, n, Low)) == RawLetter(n) == RawLetter(Rerun(est, n, Critical))
    ensures RawLetter(Rerun(est, w, Low)) == RawLetter(w) == RawLetter(Rerun(est, w, Critical))
  {
    hide RawLetter, Rerun, Lifted, RatingsApart, HasEvidence, Flagged, RowsOf;
    var low, high := Rerun(est, w, Low), Rerun(est, w, Critical);
    FlaggedAreUnrated(est, n, w);
    RerunsBracket(est, w);
    RerunsLifted(est, n, w, Low);
    LiftedBetween(n, w);
    LiftedBetween(Rerun(est, n, Low), low);
    LetterIsEvidence(w, RawLetter(w));
    LowEvidence(est, n, w, RawLetter(w));
    LetterIsEvidence(low, RawLetter(w));
    LetterIsEvidence(n, RawLetter(w));
    LetterIsEvidence(high, RawLetter(high));
    CriticalEvidence(est, n, w, RawLetter(high));
    LetterIsEvidence(w, RawLetter(high));
    LetterIsEvidence(Rerun(est, n, Critical), RawLetter(high));
    AtLeastBothWays(RawLetter(low), RawLetter(w));
    AtLeastBothWays(RawLetter(high), RawLetter(w));
  }

  /** Where LOW changes what an unrated finding alone amounts to, CRITICAL does so upwards. */
  lemma Stretches(r: Row, f: Finding)
    requires f.severity == Unrated && ScoreFinding(f, r).tier != TierImported && Alone(r, f.(severity := Low)) != Alone(r, f)
    ensures Alone(r, f.(severity := Critical)).WorseThan(Alone(r, f))
  {
  }

  lemma EvidenceAbove(m: Input, r: Row, f: Finding)
    requires r in RowsOf(m) && f in r.findings
    ensures AtLeast(RawLetter(m), Alone(r, f))
  {
    hide RawLetter, Alone, RowsOf;
    assert SomeAlone(r, Alone(r, f));
    assert FindingEvidence(m, Alone(r, f));
    LetterIsEvidence(m, Alone(r, f));
  }

  /** When the LOW re-run changes the letter, so does the CRITICAL one. */
  lemma LowImpliesCritical(est: bool, n: Input)
    requires n.self.isSelf && RatingsApart(n) && RawLetter(Rerun(est, n, Low)) != RawLetter(n)
    ensures RawLetter(Rerun(est, n, Critical)) != RawLetter(n)
  {
    var l, v := RawLetter(n), Rerun(est, n, Low);
    hide RawLetter, Rerun, RowsOf, Flagged, Alone, RatingsApart, Lifted, CalledKeys, ReachedKeys, UpkeepEvidence, ScoreFinding, FindingEvidence;
    LiftedItself(n);
    FlaggedAreUnrated(est, n, n);
    RerunsBracket(est, n);
    LetterIsEvidence(n, l);
    LetterIsEvidence(v, l);
    RerunUpkeep(est, n, Low, l);
    RerunSize(est, n, Low);
    LowKeepsKeys(est, n);
    SubsetCount(CalledKeys(RowsOf(n)), CalledKeys(RowsOf(v)));
    SubsetCount(ReachedKeys(RowsOf(n)), ReachedKeys(RowsOf(v)));
    SameRankNot(l, RawLetter(v));
    assert FindingEvidence(n, l) && !FindingEvidence(v, l);
    LostFinding(est, n, l);
  }

  lemma LiftedItself(m: Input)
    ensures Lifted(m, m)
  {
  }

  lemma SameRankNot(a: Letter, b: Letter)
    requires a != b && AtLeast(a, b)
    ensures !AtLeast(b, a)
  {
  }

  lemma OneIsEvidence(m: Input, r: Row, f: Finding, l: Letter)
    requires r in RowsOf(m) && f in r.findings
    ensures AtLeast(Alone(r, f), l) ==> FindingEvidence(m, l)
  {
    if AtLeast(Alone(r, f), l) {
      hide Alone, RowsOf;
      assert SomeAlone(r, l);
    }
  }

  lemma LostFinding(est: bool, n: Input, l: Letter)
    requires n.self.isSelf && RatingsApart(n) && FindingEvidence(n, l) && !FindingEvidence(Rerun(est, n, Low), l)
    requires l == RawLetter(n)
    ensures RawLetter(Rerun(est, n, Critical)) != l
  {
    hide RawLetter, Rerun, RowsOf, Flagged, Alone, RatingsApart, Lifted, ScoreFinding;
    var s :| s in RowsOf(n) && SomeAlone(s, l);
    var g :| g in s.findings && AtLeast(Alone(s, g), l);
    EvidenceAbove(n, s, g);
    var v := RerunTo(est, n, Low, s, g);
    SameAlone(s, v, Rated(est, g, Low));
    OneIsEvidence(Rerun(est, n, Low), v, Rated(est, g, Low), l);
    assert Flagged(est, g);
    FlaggedIsUnrated(est, n, s, g);
    LiftedItself(n);
    var r, f := FlaggedTwin(est, n, n, s, g);
    Stretches(s, g);
    var u := RerunTo(est, n, Critical, s, g);
    SameAlone(s, u, Rated(est, g, Critical));
    EvidenceAbove(Rerun(est, n, Critical), u, Rated(est, g, Critical));
  }

  /** Under one letter a re-run that mattered before a promotion matters after it. */
  lemma RerunsBack(est: bool, n: Input, w: Input)
    requires n.self.isSelf && RatingsApart(n) && Lifted(n, w) && RawLetter(n) == RawLetter(w)
    requires !(RawLetter(Rerun(est, n, Low)) == RawLetter(n) == RawLetter(Rerun(est, n, Critical)))
    ensures RawLetter(Rerun(est, w, Critical)) != RawLetter(w)
  {
    hide RawLetter, Rerun, Lifted, RatingsApart, Flagged, RowsOf;
    if RawLetter(Rerun(est, n, Low)) != RawLetter(n) { LowImpliesCritical(est, n); }
    LiftedItself(n);
    FlaggedAreUnrated(est, n, n);
    RerunsBracket(est, n);
    RerunsLifted(est, n, w, Critical);
    LiftedBetween(Rerun(est, n, Critical), Rerun(est, w, Critical));
    SameRankNot(RawLetter(Rerun(est, n, Critical)), RawLetter(n));
  }
  // ---- The parts of Grade's verdict ----

  ghost predicate HasFlag(est: bool, m: Input) { if est then HasEstimated(m) else HasFailed(m) }

  ghost predicate Matters(est: bool, m: Input, letter: Option<Letter>) {
    if est then EstimateMatters(m, letter) else LookupMatters(m, letter)
  }

  lemma HasFlagIs(est: bool, m: Input)
    ensures HasFlag(est, m) <==> exists r, f :: r in RowsOf(m) && f in r.findings && Flagged(est, f)
  {
    hide RowsOf;
    if r, f :| r in RowsOf(m) && f in r.findings && Flagged(est, f) {
      assert if est then f.severity == Unrated else f.lookupFailed;
      assert exists g :: g in r.findings && if est then g.severity == Unrated else g.lookupFailed;
    }
    if est && HasEstimated(m) {
      var r, f :| r in RowsOf(m) && f in r.findings && f.severity == Unrated;
      assert Flagged(est, f);
    }
    if !est && HasFailed(m) {
      var r, f :| r in RowsOf(m) && f in r.findings && f.lookupFailed;
      assert Flagged(est, f);
    }
  }

  /** The twin of a finding after the promotion. */
  lemma LiftedTo(n: Input, w: Input, r: Row, f: Finding) returns (s: Row, g: Finding)
    requires Lifted(n, w) && r in RowsOf(n) && f in r.findings
    ensures s in RowsOf(w) && g in s.findings && Lifts(f, g)
  {
    hide Lifts;
    if r == n.self {
      s, g := w.self, f;
      LiftsItself(f);
      assert RowsOf(w)[0] == w.self;
    } else {
      var i :| 0 <= i < |n.deps| && n.deps[i] == r;
      var j :| 0 <= j < |r.findings| && r.findings[j] == f;
      assert RowRel(r, w.deps[i], Lifts);
      s, g := w.deps[i], w.deps[i].findings[j];
      assert RowsOf(w)[i + 1] == s;
    }
  }

  lemma LiftsKeepsFlags(est: bool, f: Finding, g: Finding)
    requires Lifts(f, g)
    ensures Flagged(est, f) == Flagged(est, g)
  {
  }

  lemma FlagsStay(est: bool, n: Input, w: Input)
    requires Lifted(n, w)
    ensures HasFlag(est, n) <==> HasFlag(est, w)
  {
    hide Lifted, RowsOf, HasFlag, Flagged, Lifts;
    HasFlagIs(est, n);
    HasFlagIs(est, w);
    if HasFlag(est, n) {
      var r, f :| r in RowsOf(n) && f in r.findings && Flagged(est, f);
      var s, g := LiftedTo(n, w, r, f);
      LiftsKeepsFlags(est, f, g);
    }
    if HasFlag(est, w) {
      var s, g :| s in RowsOf(w) && g in s.findings && Flagged(est, g);
      var r, f := LiftedFrom(n, w, s, g);
      LiftsKeepsFlags(est, f, g);
    }
  }

  lemma LiftedRelated(m: Input, n: Input)
    requires Lifted(m, n)
    ensures InputRel(m, n, Lifts) && InputRel(m, n, SameAdvisory)
  {
    forall i | 0 <= i < |m.deps| ensures RowRel(m.deps[i], n.deps[i], SameAdvisory) {
      assert RowRel(m.deps[i], n.deps[i], Lifts);
    }
  }

  lemma RerunRelated(est: bool, m: Input, sev: Severity)
    requires Clean(m)
    ensures InputRel(m, Rerun(est, m, sev), SameAdvisory) && Clean(Rerun(est, m, sev))
  {
    MappedRel(m, if est then EstimatedAs(sev) else FailedAs(sev), SameAdvisory);
    MappedClean(m, if est then EstimatedAs(sev) else FailedAs(sev));
  }

  /** What withholds a letter reads no finding, so the letter decides whether it is given. */
  lemma GivenLetter(m: Input, n: Input, l: Letter)
    requires Clean(m) && Clean(n) && InputRel(m, n, SameAdvisory) && GradeOnceOf(m).letter == Some(l)
    ensures RawLetter(m) == l && (GradeOnceOf(n).letter == Some(l) <==> RawLetter(n) == l)
  {
    CleanStaysMerged(m);
    CleanStaysMerged(n);
    VerdictOf(m);
    VerdictOf(n);
    hide GradeOnceOf, GradeMerged, LetterScore, PendingOf, Clean, InputRel;
    if RawLetter(n) == RawLetter(m) { PendingIgnoresFindings(m, n, SameAdvisory, LetterScore(m), LetterScore(n)); }
  }

  /** With a given letter, a re-run matters exactly when it changes the letter of the rows. */
  lemma MattersMeans(est: bool, m: Input, l: Letter)
    requires Clean(m) && GradeOnceOf(m).letter == Some(l)
    ensures RawLetter(m) == l
    ensures Matters(est, m, Some(l)) <==>
      HasFlag(est, m) && !(RawLetter(Rerun(est, m, Low)) == l == RawLetter(Rerun(est, m, Critical)))
  {
    hide GradeOnceOf, RawLetter, Clean, HasEstimated, HasFailed, InputRel, WithEstimatedSeverity, WithLookupSeverity;
    RerunRelated(est, m, Low);
    RerunRelated(est, m, Critical);
    GivenLetter(m, Rerun(est, m, Low), l);
    GivenLetter(m, Rerun(est, m, Critical), l);
  }

  /** What Grade returns, from its first run and its re-runs. */
  lemma VerdictParts(a: Input)
    ensures var m, res, g := MergedInput(a), GradeMerged(MergedInput(a)), GradeOf(a);
      && GradeOnceOf(m) == res && (res.letter.Some? <==> res.pending.None?) && res.pending != Some(SeverityLookup)
      && (res.letter.Some? ==> res.letter == Some(RawLetter(m)))
      && g.archivedUnread == res.archivedUnread && (res.pending.Some? ==> res.archivedUnread == [])
      && g.pending == (if res.pending.Some? then res.pending else if Matters(false, m, res.letter) then Some(SeverityLookup) else None)
      && g.letter == (if g.pending.Some? then None else res.letter)
      && (g.estimated <==> g.pending.None? && Matters(true, m, res.letter))
  {
    FirstRun(a);
    LetterUnlessPending(MergedInput(a));
    VerdictOf(MergedInput(a));
    FirstParts(MergedInput(a));
    hide GradeOnceOf, GradeMerged, MergedInput, LookupMatters, EstimateMatters, RawLetter, LetterScore, PendingOf;
  }

  lemma FirstParts(m: Input)
    ensures GradeMerged(m).pending.Some? ==> GradeMerged(m).archivedUnread == []
    ensures !GradeMerged(m).estimated
    ensures GradeMerged(m).pending.None? ==> GradeMerged(m).archivedUnread == SortList(UnreadNames(m.deps, LetterScore(m)))
    ensures GradeMerged(m).pending == PendingOf(m, LetterScore(m)) && BandOf(LetterScore(m)) == RawLetter(m)
  {
    hide LetterScore, PendingOf, UnreadNames, RowOrder, DecidingOf, RaisingRule;
  }

  // ---- What withholds the letter, between two letters ----

  lemma PendingBetween(m: Input, n: Input, w: Input, s: int, t: int, u: int)
    requires InputRel(m, n, SameAdvisory) && InputRel(n, w, SameAdvisory)
    requires AtLeast(BandOf(t), BandOf(s)) && AtLeast(BandOf(u), BandOf(t)) && PendingOf(m, s) == PendingOf(w, u)
    ensures PendingOf(n, t) == PendingOf(m, s)
  {
    hide BandOf;
    if PendingOf(m, s).None? { NoneWithholds(m, n, s, t); }
    if d :| d in n.deps && Withholds(d, t) { WithholdsBefore(m, n, s, t, d); }
    if d :| d in w.deps && Withholds(d, u) { WithholdsBefore(n, w, t, u, d); }
  }

  /** A dependency that withholds a worse letter withholds a better one. */
  lemma WithholdsBefore(m: Input, n: Input, s: int, t: int, d: Row)
    requires InputRel(m, n, SameAdvisory) && AtLeast(BandOf(t), BandOf(s)) && d in n.deps && Withholds(d, t)
    ensures exists e :: e in m.deps && Withholds(e, s)
  {
    var i :| 0 <= i < |n.deps| && n.deps[i] == d;
    assert RowRel(m.deps[i], d, SameAdvisory) && m.deps[i] in m.deps;
    assert Withholds(m.deps[i], s);
  }

  lemma NoneWithholds(m: Input, n: Input, s: int, t: int)
    requires InputRel(m, n, SameAdvisory) && AtLeast(BandOf(t), BandOf(s)) && PendingOf(m, s).None?
    ensures PendingOf(n, t).None?
  {
    if d :| d in n.deps && Withholds(d, t) { WithholdsBefore(m, n, s, t, d); }
  }

  // ---- The list of unread flags, between two letters ----

  lemma UnreadByLetter(a: Input, i: int)
    requires 0 <= i < |a.deps|
    ensures UnreadMatters(a.deps[i], LetterScore(a)) <==>
      a.deps[i].upkeep.archivedUnread && BandOf(WorstUpkeep(a.deps[i])).WorseThan(RawLetter(a))
  {
    hide UnreadMatters, RawLetter, LetterScore;
    MattersExactly(a, a.deps[i]);
  }

  lemma UnreadLess(m: Input, n: Input, i: int)
    requires InputRel(m, n, SameAdvisory) && AtLeast(RawLetter(n), RawLetter(m)) && 0 <= i < |m.deps|
    ensures m.deps[i].module_ == n.deps[i].module_
    ensures UnreadMatters(n.deps[i], LetterScore(n)) ==> UnreadMatters(m.deps[i], LetterScore(m))
  {
    hide UnreadMatters, RawLetter, LetterScore;
    UnreadByLetter(m, i);
    UnreadByLetter(n, i);
    assert RowRel(m.deps[i], n.deps[i], SameAdvisory);
    assert WorstUpkeep(m.deps[i]) == WorstUpkeep(n.deps[i]);
  }

  /** Fewer flags matter: the names are fewer, or the same. */
  lemma {:induction false} NamesLess(ds: seq<Row>, es: seq<Row>, s: int, t: int)
    requires |ds| == |es|
    requires forall i :: 0 <= i < |ds| ==> ds[i].module_ == es[i].module_ && (UnreadMatters(es[i], t) ==> UnreadMatters(ds[i], s))
    ensures |UnreadNames(es, t)| <= |UnreadNames(ds, s)|
    ensures |UnreadNames(es, t)| == |UnreadNames(ds, s)| ==> UnreadNames(es, t) == UnreadNames(ds, s)
  {
    hide UnreadMatters;
    if ds != [] {
      var n := |ds| - 1;
      NamesLess(ds[..n], es[..n], s, t);
    }
  }

  lemma NamesBelow(m: Input, n: Input)
    requires InputRel(m, n, SameAdvisory) && AtLeast(RawLetter(n), RawLetter(m))
    ensures var x, y := UnreadNames(m.deps, LetterScore(m)), UnreadNames(n.deps, LetterScore(n));
      |y| <= |x| && (|y| == |x| ==> y == x)
  {
    hide UnreadMatters, RawLetter, LetterScore;
    forall i | 0 <= i < |m.deps|
      ensures m.deps[i].module_ == n.deps[i].module_
      ensures UnreadMatters(n.deps[i], LetterScore(n)) ==> UnreadMatters(m.deps[i], LetterScore(m))
    {
      UnreadLess(m, n, i);
    }
    NamesLess(m.deps, n.deps, LetterScore(m), LetterScore(n));
  }

  lemma SortedSize(s: seq<string>)
    ensures |SortList(s)| == |s|
  {
    assert |multiset(SortList(s))| == |multiset(s)|;
  }

  lemma ListBetween(m: Input, n: Input, w: Input)
    requires InputRel(m, n, SameAdvisory) && InputRel(n, w, SameAdvisory)
    requires AtLeast(RawLetter(n), RawLetter(m)) && AtLeast(RawLetter(w), RawLetter(n))
    requires SortList(UnreadNames(m.deps, LetterScore(m))) == SortList(UnreadNames(w.deps, LetterScore(w)))
    ensures SortList(UnreadNames(n.deps, LetterScore(n))) == SortList(UnreadNames(m.deps, LetterScore(m)))
  {
    hide UnreadNames, RawLetter, LetterScore, SortList;
    NamesBelow(m, n);
    NamesBelow(n, w);
    SortedSize(UnreadNames(m.deps, LetterScore(m)));
    SortedSize(UnreadNames(w.deps, LetterScore(w)));
  }

  lemma ListSame(m: Input, n: Input)
    requires InputRel(m, n, SameAdvisory) && RawLetter(n) == RawLetter(m)
    ensures SortList(UnreadNames(n.deps, LetterScore(n))) == SortList(UnreadNames(m.deps, LetterScore(m)))
  {
    hide UnreadNames, RawLetter, LetterScore, SortList;
    NamesBelow(m, n);
    RelatedBack(m, n);
    NamesBelow(n, m);
  }

  lemma RelatedBack(m: Input, n: Input)
    requires InputRel(m, n, SameAdvisory)
    ensures InputRel(n, m, SameAdvisory)
  {
    RowBack(m.self, n.self);
    forall i | 0 <= i < |n.deps| ensures RowRel(n.deps[i], m.deps[i], SameAdvisory) { RowBack(m.deps[i], n.deps[i]); }
  }

  lemma RowBack(r: Row, s: Row)
    requires RowRel(r, s, SameAdvisory)
    ensures RowRel(s, r, SameAdvisory)
  {
    forall j | 0 <= j < |s.findings| ensures SameAdvisory(s.findings[j], r.findings[j]) {
      assert SameAdvisory(r.findings[j], s.findings[j]);
    }
  }

  // ---- The inputs of the theorems ----

  /** b is a with some findings promoted, and promotion leaves b's ratings apart. */
  ghost predicate Step(a: Input, b: Input) {
    && Lifted(a, b) && Clean(a) && Clean(b) && a.self.isSelf && b.self.isSelf && RatingsApart(a) && RatingsApart(b)
  }

  lemma LiftedApart(n: Input, w: Input)
    requires Lifted(n, w) && RatingsApart(n)
    ensures RatingsApart(w)
  {
    hide Lifted, RowsOf;
    forall s, g | s in RowsOf(w) && g in s.findings && g.lookupFailed ensures g.severity == Unrated {
      var r, f := LiftedFrom(n, w, s, g);
    }
    forall e, g | e in w.deps && g in e.findings && g.reach == Imported ensures g.severity != Unrated {
      var d, f := DepFrom(n, w, e, g);
    }
  }

  lemma DepFrom(n: Input, w: Input, e: Row, g: Finding) returns (d: Row, f: Finding)
    requires Lifted(n, w) && e in w.deps && g in e.findings
    ensures d in n.deps && f in d.findings && Lifts(f, g)
  {
    hide Lifts;
    var i :| 0 <= i < |w.deps| && w.deps[i] == e;
    var j :| 0 <= j < |e.findings| && e.findings[j] == g;
    assert RowRel(n.deps[i], e, Lifts);
    d, f := n.deps[i], n.deps[i].findings[j];
  }

  lemma StepOf(a: Input, b: Input)
    requires a.self.isSelf && Promoted(a, b) && RatingsApart(MergedInput(a))
    ensures Step(MergedInput(a), MergedInput(b))
  {
    assert b.self == a.self;
    assert MergedInput(a).self.isSelf && MergedInput(b).self.isSelf;
    hide MergedInput, Promoted, RatingsApart, Lifted;
    PromotedMerged(a, b);
    MergedIsClean(a);
    MergedIsClean(b);
    LiftedApart(MergedInput(a), MergedInput(b));
  }

  lemma StepMeans(n: Input, w: Input)
    requires Step(n, w)
    ensures InputRel(n, w, SameAdvisory) && AtLeast(RawLetter(w), RawLetter(n))
  {
    hide RawLetter;
    LiftedRelated(n, w);
    LiftedBetween(n, w);
  }

  /** Once a letter is given, every promotion is given one; and re-runs that did not matter do not matter then. */
  lemma GivenCarries(n: Input, w: Input)
    requires Step(n, w) && GradeOnceOf(n).letter.Some?
    ensures GradeOnceOf(n).letter == Some(RawLetter(n)) && GradeOnceOf(w).letter == Some(RawLetter(w))
    ensures forall est :: Matters(est, w, Some(RawLetter(w))) ==> Matters(est, n, Some(RawLetter(n)))
  {
    StepMeans(n, w);
    hide GradeOnceOf, RawLetter, Matters, Lifted, Clean, RatingsApart, InputRel, Rerun, HasFlag;
    GivenAtWorse(n, w);
    forall est | Matters(est, w, Some(RawLetter(w))) ensures Matters(est, n, Some(RawLetter(n))) {
      MattersMeans(est, n, RawLetter(n));
      MattersMeans(est, w, RawLetter(w));
      FlagsStay(est, n, w);
      if RawLetter(Rerun(est, n, Low)) == RawLetter(n) == RawLetter(Rerun(est, n, Critical)) { RerunsCarry(est, n, w); }
    }
  }

  lemma GivenAtWorse(n: Input, w: Input)
    requires Clean(n) && Clean(w) && InputRel(n, w, SameAdvisory) && AtLeast(RawLetter(w), RawLetter(n)) && GradeOnceOf(n).letter.Some?
    ensures GradeOnceOf(n).letter == Some(RawLetter(n)) && GradeOnceOf(w).letter == Some(RawLetter(w))
  {
    hide GradeOnceOf, GradeMerged, RawLetter, LetterScore, PendingOf, Clean, InputRel;
    CleanStaysMerged(n);
    CleanStaysMerged(w);
    VerdictOf(n);
    VerdictOf(w);
    FirstParts(n);
    FirstParts(w);
    NoneWithholds(n, w, LetterScore(n), LetterScore(w));
  }

  /** Under one letter everything a caller decides on is the same. */
  lemma SameLetterSameVerdict(a: Input, b: Input)
    requires Step(MergedInput(a), MergedInput(b)) && RawLetter(MergedInput(b)) == RawLetter(MergedInput(a))
    ensures SameVerdict(GradeOf(b), GradeOf(a))
  {
    var n, w := MergedInput(a), MergedInput(b);
    StepMeans(n, w);
    VerdictParts(a);
    VerdictParts(b);
    FirstParts(n);
    FirstParts(w);
    hide GradeOnceOf, GradeMerged, GradeOf, MergedInput, RawLetter, Matters, Lifted, Clean, RatingsApart, InputRel, LetterScore, PendingOf, UnreadNames, SortList, BandOf;
    PendingIgnoresFindings(n, w, SameAdvisory, LetterScore(n), LetterScore(w));
    ListSame(n, w);
    if GradeOnceOf(n).letter.Some? {
      GivenCarries(n, w);
      MattersBack(n, w);
    }
  }

  lemma MattersBack(n: Input, w: Input)
    requires Step(n, w) && RawLetter(w) == RawLetter(n)
    requires GradeOnceOf(n).letter == Some(RawLetter(n)) && GradeOnceOf(w).letter == Some(RawLetter(w))
    ensures forall est :: Matters(est, n, Some(RawLetter(n))) ==> Matters(est, w, Some(RawLetter(w)))
  {
    hide GradeOnceOf, RawLetter, Matters, Lifted, Clean, RatingsApart, Rerun, HasFlag;
    forall est | Matters(est, n, Some(RawLetter(n))) ensures Matters(est, w, Some(RawLetter(w))) {
      MattersMeans(est, n, RawLetter(n));
      MattersMeans(est, w, RawLetter(w));
      FlagsStay(est, n, w);
      RerunsBack(est, n, w);
    }
  }

  /** A verdict that everything promoted leaves alone is left alone by every promotion in between. */
  lemma VerdictBetween(a: Input, b: Input, c: Input)
    requires Step(MergedInput(a), MergedInput(b)) && Step(MergedInput(b), MergedInput(c))
    requires SameVerdict(GradeOf(c), GradeOf(a))
    ensures SameVerdict(GradeOf(b), GradeOf(a))
  {
    var m, n, w := MergedInput(a), MergedInput(b), MergedInput(c);
    StepMeans(m, n);
    StepMeans(n, w);
    VerdictParts(a);
    VerdictParts(b);
    VerdictParts(c);
    FirstParts(m);
    FirstParts(n);
    FirstParts(w);
    hide GradeOnceOf, GradeMerged, GradeOf, MergedInput, RawLetter, Matters, Step, InputRel, LetterScore, PendingOf, UnreadNames, SortList, BandOf;
    PendingBetween(m, n, w, LetterScore(m), LetterScore(n), LetterScore(w));
    if GradeOnceOf(m).letter.Some? {
      GivenCarries(m, n);
      GivenCarries(n, w);
      ListBetween(m, n, w);
      if GradeOf(a).pending.None? { AtLeastBothWays(RawLetter(n), RawLetter(m)); }
    }
  }

  // ---- The promise of a skipped pass ----

  lemma MergedImportedRated(scan: map<string, seq<Vuln>>, r: Row, f: Finding)
    requires !Needed(scan) && FromScan(r, scan) && f in Merged(r.findings) && f.reach == Imported
    ensures f.severity != Unrated
  {
    hide GroupValue, Class, TopSeverity, HasExploited, FromScan, Needed, Merged;
    var fs := r.findings;
    OutputIsGroup(fs, f);
    var i :| 0 <= i < |fs| && f == GroupValue(fs, i);
    GroupIsTop(fs, i);
    var c := Class(fs, i);
    var g :| g in c && g.reach == Imported;
    ClassMember(fs, i, g);
    QuietScanned(scan, r, g);
    RatedTop(c, g);
  }

  lemma RatedTop(c: set<Finding>, g: Finding)
    requires g in c && g.severity != Unrated
    ensures TopSeverity(c) != Unrated
  {
    assert HasSeverity(c, g.severity);
  }

  lemma ScanApart(scan: map<string, seq<Vuln>>, a: Input)
    requires !Needed(scan) && FailedAreUnrated(a) && forall d :: d in a.deps ==> FromScan(d, scan)
    ensures RatingsApart(MergedInput(a))
  {
    var m := MergedInput(a);
    hide Needed, FromScan, Merged, FailedAreUnrated;
    forall r, f | r in RowsOf(m) && f in r.findings && f.lookupFailed ensures f.severity == Unrated {
      MergedRowsFailed(a, r, f);
    }
    forall d, f | d in m.deps && f in d.findings && f.reach == Imported ensures f.severity != Unrated {
      var i :| 0 <= i < |m.deps| && m.deps[i] == d;
      assert a.deps[i] in a.deps && f in Merged(a.deps[i].findings);
      MergedImportedRated(scan, a.deps[i], f);
    }
  }

  lemma MergedRowsFailed(a: Input, r: Row, f: Finding)
    requires FailedAreUnrated(a) && r in RowsOf(MergedInput(a)) && f in r.findings && f.lookupFailed
    ensures f.severity == Unrated
  {
    if r == MergedInput(a).self {
      var fs := a.self.findings;
      assert RowsOf(a)[0] == a.self && a.self in RowsOf(a);
      var k :| 0 <= k < |Merged(fs)| && Merged(fs)[k] == f;
      hide Merged;
      LookupFailureOnlyUnrated(fs, k);
    } else {
      var i :| 0 <= i < |a.deps| && MergedInput(a).deps[i] == r;
      MergedFailedAreUnrated(a, i);
    }
  }

  /** Every promotion of a lies between a and everything promoted. */
  lemma StepsOf(a: Input, b: Input)
    requires a.self.isSelf && Promoted(a, b) && RatingsApart(MergedInput(a))
    ensures Step(MergedInput(a), MergedInput(b)) && Step(MergedInput(b), MergedInput(UpInput(a)))
  {
    UpAgain(a, b);
    UpIsPromoted(b);
    assert b.self == a.self;
    hide MergedInput, Promoted, UpInput, RatingsApart;
    StepOf(a, b);
    assert RatingsApart(MergedInput(b));
    StepOf(b, UpInput(a));
  }

  lemma UpAgain(a: Input, b: Input)
    requires Promoted(a, b)
    ensures UpInput(b) == UpInput(a)
  {
    forall i | 0 <= i < |a.deps| ensures UpRow(b.deps[i]) == UpRow(a.deps[i]) {
      assert RowRel(a.deps[i], b.deps[i], Promotes);
      forall j | 0 <= j < |a.deps[i].findings| ensures UpFinding(b.deps[i].findings[j]) == UpFinding(a.deps[i].findings[j]) {
        assert Promotes(a.deps[i].findings[j], b.deps[i].findings[j]);
      }
      assert UpRow(b.deps[i]).findings == UpRow(a.deps[i]).findings;
    }
    assert UpInput(b).deps == UpInput(a).deps;
  }

  /** For every input, withheld letters included: after a false answer no outcome of the called pass changes the letter, the
      pending check, the star or the unread list if and only if the outcome that promotes everything does not. */
  lemma WorstOutcomeDecides(scan: map<string, seq<Vuln>>, a: Input)
    requires !Needed(scan) && FailedAreUnrated(a) && a.self.isSelf && forall d :: d in a.deps ==> FromScan(d, scan)
    ensures (forall b :: Promoted(a, b) ==> SameVerdict(GradeOf(b), GradeOf(a))) <==> SameVerdict(GradeOf(UpInput(a)), GradeOf(a))
  {
    ScanApart(scan, a);
    UpIsPromoted(a);
    hide GradeOf, SameVerdict, Promoted, MergedInput, UpInput, RatingsApart, Step;
    if SameVerdict(GradeOf(UpInput(a)), GradeOf(a)) {
      forall b | Promoted(a, b) ensures SameVerdict(GradeOf(b), GradeOf(a)) {
        StepsOf(a, b);
        VerdictBetween(a, b, UpInput(a));
      }
    }
  }

  /** The letter stays withheld in every outcome if and only if it does in the one that promotes everything. */
  lemma StaysWithheld(scan: map<string, seq<Vuln>>, a: Input)
    requires !Needed(scan) && FailedAreUnrated(a) && a.self.isSelf && forall d :: d in a.deps ==> FromScan(d, scan)
    ensures (forall b :: Promoted(a, b) ==> GradeOf(b).letter.None?) <==> GradeOf(UpInput(a)).letter.None?
  {
    ScanApart(scan, a);
    UpIsPromoted(a);
    hide GradeOf, Promoted, MergedInput, UpInput, RatingsApart, Step;
    if GradeOf(UpInput(a)).letter.None? {
      forall b | Promoted(a, b) ensures GradeOf(b).letter.None? {
        StepsOf(a, b);
        GivenStays(b, UpInput(a));
      }
    }
  }

  lemma GivenStays(b: Input, c: Input)
    requires Step(MergedInput(b), MergedInput(c))
    ensures GradeOf(b).letter.Some? ==> GradeOf(c).letter.Some?
  {
    VerdictParts(b);
    VerdictParts(c);
    hide GradeOnceOf, GradeMerged, GradeOf, MergedInput, RawLetter, Matters, Step;
    if GradeOf(b).letter.Some? { GivenCarries(MergedInput(b), MergedInput(c)); }
  }

  /** The promise of a skipped pass, exactly. If the test answers false and Grade gives a letter, then no outcome of the pass
      would have changed it, the star or the unread list if and only if the merged input is settled: it is an F, or fewer
      than three high or critical advisories are reached and no merged imported finding, called, would by itself grade worse. */
  lemma SkippingExact(scan: map<string, seq<Vuln>>, a: Input)
    requires !Needed(scan) && FailedAreUnrated(a) && forall d :: d in a.deps ==> FromScan(d, scan)
    requires a.self.isSelf && GradeOf(a).letter.Some?
    ensures (forall b :: Promoted(a, b) ==> SameVerdict(GradeOf(b), GradeOf(a))) <==> Settled(MergedInput(a))
    ensures (forall b :: Promoted(a, b) ==> GradeOf(b).letter == GradeOf(a).letter) <==> Settled(MergedInput(a))
  {
    var c := UpInput(a);
    WorstOutcomeDecides(scan, a);
    ScanApart(scan, a);
    UpIsPromoted(a);
    UpExact(MergedInput(a));
    UpMerged(a);
    VerdictParts(a);
    VerdictParts(c);
    MergedSelf(a);
    hide GradeOf, Promoted, MergedInput, UpInput, RatingsApart, Step, Settled, RawLetter, Matters, GradeMerged, GradeOnceOf;
    if Settled(MergedInput(a)) {
      StepsOf(a, c);
      SameLetterSameVerdict(a, c);
    }
  }

  lemma MergedSelf(a: Input)
    ensures MergedInput(a).self.isSelf == a.self.isSelf
  {
  }
}
