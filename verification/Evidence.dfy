/** Where a letter comes from: single findings, upkeep and the whole-tree counts. Every relational theorem rests on this. */
module Evidence {
  import opened GradeTypes
  import opened Scoring
  import opened Tree

  predicate AtLeast(a: Letter, b: Letter) { a.Rank() >= b.Rank() }

  lemma SameRank(a: Letter, b: Letter)
    requires a.Rank() == b.Rank()
    ensures a == b
  {
  }

  /** The end of the order of operations: the cap at 100, the known-exploited floor, the test-only halving. */
  function Finish(testOnly: Tri, base: int, exploited: bool): int {
    var capped := Min(base, 100);
    var floored := if exploited then Max(capped, EXPLOITED_FLOOR) else capped;
    if testOnly == Yes then Min(floored / 2, TEST_ONLY_CAP) else floored
  }

  function AloneScore(r: Row, f: Finding): int {
    var s := ScoreFinding(f, r);
    Finish(r.testOnly, s.score, s.tier == TierCalled && f.exploited)
  }

  lemma OfTierSingleton(s: Scored, tier: Tier)
    ensures OfTier([s], tier) == if s.tier == tier then [s] else []
  {
    var l := [s];
    assert l[..|l| - 1] == [] && l[|l| - 1] == s;
    assert OfTier([], tier) == [];
  }

  lemma LeadSingleton(s: Scored)
    ensures Lead([s]) == Some(s) && Further(HighIds([s])) == 0
    ensures ExploitedOf([s]) == if s.finding.exploited then [s] else []
  {
    var l := [s];
    assert l[..|l| - 1] == [] && l[|l| - 1] == s;
    assert ExploitedOf([]) == [] && Lead([]) == None;
    assert HighIds(l) == if HighOrCritical(s.sev) then {s.finding.id} else {};
  }

  /** The letter of the row's vulnerabilities if f were its only finding. */
  function Alone(r: Row, f: Finding): Letter { BandOf(AloneScore(r, f)) }

  lemma {:induction false} AloneIsSingleRow(r: Row, f: Finding)
    ensures RowVuln(r.(findings := [f])).score == AloneScore(r, f)
  {
    hide RowVuln, OfTier, HighIds, ScoreAll;
    var one := r.(findings := [f]);
    var s := ScoreFinding(f, one);
    assert ScoreAll([f], one) == [s] && s == ScoreFinding(f, r);
    OfTierSingleton(s, TierCalled);
    OfTierSingleton(s, TierImported);
    LeadSingleton(s);
    RowVulnShape(one);
  }

  // ---- One row ----

  function CalledOf(r: Row): seq<Scored> { OfTier(ScoreAll(r.findings, r), TierCalled) }

  /** The distinct called high or critical advisories of a row. */
  function RowHighIds(r: Row): set<string> { HighIds(CalledOf(r)) }

  lemma ListScoreBounds(l: seq<Scored>, tier: Tier, cap: int, bonus: bool)
    requires forall x :: x in l ==> WellScored(x) && x.tier == tier
    requires tier != TierGraphOnly && (tier == TierImported ==> cap == 50 && !bonus) && (tier == TierCalled ==> cap == 0 && bonus)
    ensures forall x :: x in l ==> x.score <= ListScore(l, cap, bonus)
    ensures l == [] ==> ListScore(l, cap, bonus) == 0
    ensures l != [] ==> Lead(l).Some? && Lead(l).value in l
    ensures l != [] ==> ListScore(l, cap, bonus) == Lead(l).value.score + (if tier == TierCalled then 5 * Further(HighIds(l)) else 0)
    ensures l != [] && HighIds(l) != {} ==> HighOrCritical(Lead(l).value.sev)
  {
    LeadIsFirst(l);
    if l != [] && HighIds(l) != {} {
      var id :| id in HighIds(l);
      var x :| x in l && HighOrCritical(x.sev) && x.finding.id == id;
      assert !Leads(x, Lead(l).value);
    }
  }

  function ImportedOf(r: Row): seq<Scored> { OfTier(ScoreAll(r.findings, r), TierImported) }

  function CalledPart(r: Row): int { ListScore(CalledOf(r), 0, true) }

  function ImportedPart(r: Row): int { ListScore(ImportedOf(r), IMPORTED_CAP, false) }

  lemma RowVulnShape(r: Row)
    ensures RowVuln(r).score == Finish(r.testOnly, Max(CalledPart(r), ImportedPart(r)), ExploitedOf(CalledOf(r)) != [])
    ensures CalledPart(r) >= 0 && ImportedPart(r) >= 0
    ensures CalledOf(r) != [] ==> CalledPart(r) > 0
    ensures ImportedOf(r) != [] ==> ImportedPart(r) > 0
  {
    ListScoreBounds(CalledOf(r), TierCalled, 0, true);
    ListScoreBounds(ImportedOf(r), TierImported, IMPORTED_CAP, false);
    LeadIsFirst(CalledOf(r));
    LeadIsFirst(ImportedOf(r));
  }

  lemma FinishMonotone(testOnly: Tri, b1: int, k1: bool, b2: int, k2: bool)
    requires b1 <= b2 && (k1 ==> k2)
    ensures Finish(testOnly, b1, k1) <= Finish(testOnly, b2, k2)
  {
  }

  /** The +5 steps leave the band of the worst finding until the third one. */
  lemma BonusBand(testOnly: Tri, lead: int, further: int, k: bool)
    requires lead == 70 || lead == 90
    requires further >= 0
    ensures further < 2 || testOnly == Yes ==> BandOf(Finish(testOnly, lead + 5 * further, k)) == BandOf(Finish(testOnly, lead, k))
    ensures further >= 2 && testOnly != Yes ==> BandOf(Finish(testOnly, lead + 5 * further, k)) == LetterF
  {
  }

  lemma ScoredFromFinding(r: Row, x: Scored)
    requires x in CalledOf(r) || x in ImportedOf(r)
    ensures x.finding in r.findings && x == ScoreFinding(x.finding, r)
  {
  }

  lemma FindingInItsTier(r: Row, f: Finding)
    requires f in r.findings
    ensures var s := ScoreFinding(f, r);
      && (s.tier == TierCalled ==> s in CalledOf(r) && (f.exploited ==> ExploitedOf(CalledOf(r)) != []))
      && (s.tier == TierImported ==> s in ImportedOf(r))
  {
    var k :| 0 <= k < |r.findings| && r.findings[k] == f;
    var s := ScoreAll(r.findings, r)[k];
    assert s == ScoreFinding(f, r) && s in ScoreAll(r.findings, r);
    assert s.tier == TierCalled && f.exploited ==> s in ExploitedOf(CalledOf(r));
  }

  lemma FindingBelowParts(r: Row, f: Finding)
    requires f in r.findings
    ensures ScoreFinding(f, r).score <= Max(CalledPart(r), ImportedPart(r))
  {
    FindingInItsTier(r, f);
    RowVulnShape(r);
    var s := ScoreFinding(f, r);
    match s.tier
    case TierCalled => ListScoreBounds(CalledOf(r), TierCalled, 0, true);
    case TierImported => ListScoreBounds(ImportedOf(r), TierImported, IMPORTED_CAP, false);
    case TierGraphOnly =>
  }

  lemma BandMonotone(a: int, b: int)
    requires a <= b
    ensures AtLeast(BandOf(b), BandOf(a))
  {
  }

  lemma AloneBelowRow(r: Row, f: Finding)
    requires f in r.findings
    ensures AtLeast(BandOf(RowVuln(r).score), Alone(r, f))
  {
    var base, k := Max(CalledPart(r), ImportedPart(r)), ExploitedOf(CalledOf(r)) != [];
    assert RowVuln(r).score == Finish(r.testOnly, base, k) by { RowVulnShape(r); }
    var s := ScoreFinding(f, r);
    assert AloneScore(r, f) <= Finish(r.testOnly, base, k) by {
      FindingInItsTier(r, f);
      FindingBelowParts(r, f);
      FinishMonotone(r.testOnly, s.score, s.tier == TierCalled && f.exploited, base, k);
    }
    BandMonotone(AloneScore(r, f), RowVuln(r).score);
  }

  ghost predicate SomeAlone(r: Row, l: Letter) { exists f :: f in r.findings && AtLeast(Alone(r, f), l) }

  lemma ExploitedReaches(r: Row)
    requires ExploitedOf(CalledOf(r)) != []
    ensures SomeAlone(r, BandOf(Finish(r.testOnly, EXPLOITED_FLOOR, true)))
  {
    var x := ExploitedOf(CalledOf(r))[0];
    assert x in ExploitedOf(CalledOf(r));
    ScoredFromFinding(r, x);
    FinishMonotone(r.testOnly, 0, true, x.score, true);
  }

  lemma FindingReaches(r: Row, x: Scored)
    requires x in CalledOf(r) || x in ImportedOf(r)
    ensures SomeAlone(r, BandOf(Finish(r.testOnly, x.score, false)))
  {
    ScoredFromFinding(r, x);
    FinishMonotone(r.testOnly, x.score, false, x.score, x.tier == TierCalled && x.finding.exploited);
    assert x.finding in r.findings;
  }

  /** Some finding alone has the row's letter, unless three called high findings made it F. */
  lemma {:induction false} WorstAloneReaches(r: Row)
    ensures
      || BandOf(RowVuln(r).score) == LetterA
      || SomeAlone(r, BandOf(RowVuln(r).score))
      || (r.testOnly != Yes && |RowHighIds(r)| >= TREE_CALLED_FINDINGS)
    ensures r.testOnly != Yes && |RowHighIds(r)| >= TREE_CALLED_FINDINGS ==> BandOf(RowVuln(r).score) == LetterF
  {
    RowVulnShape(r);
    ListScoreBounds(CalledOf(r), TierCalled, 0, true);
    ListScoreBounds(ImportedOf(r), TierImported, IMPORTED_CAP, false);
    hide RowVuln, Lead, ExploitedOf, OfTier, ListScore, HighIds, SomeAlone;
    var cs, im, k := CalledPart(r), ImportedPart(r), ExploitedOf(CalledOf(r)) != [];
    if CalledOf(r) == [] {
      if ImportedOf(r) != [] { FindingReaches(r, Lead(ImportedOf(r)).value); }
    } else {
      var lead, n := Lead(CalledOf(r)).value, Further(RowHighIds(r));
      var b := Finish(r.testOnly, Max(cs, im), k);
      if k { ExploitedReaches(r); }
      if ImportedOf(r) != [] { FindingReaches(r, Lead(ImportedOf(r)).value); }
      FindingReaches(r, lead);
      if RowHighIds(r) != {} {
        assert lead.score == 70 || lead.score == 90 by { assert lead.tier == TierCalled && WellScored(lead); }
        BonusBand(r.testOnly, lead.score, n, k);
        BonusBand(r.testOnly, lead.score, n, false);
        assert Max(cs, im) == cs;
      }
    }
  }

  /** A row's vulnerability letter is the worst of its findings taken alone, or F for three called high ones. */
  lemma RowVulnBand(r: Row, l: Letter)
    ensures AtLeast(BandOf(RowVuln(r).score), l) <==>
      || l == LetterA
      || SomeAlone(r, l)
      || (r.testOnly != Yes && |RowHighIds(r)| >= TREE_CALLED_FINDINGS)
  {
    WorstAloneReaches(r);
    if f :| f in r.findings && AtLeast(Alone(r, f), l) {
      AloneBelowRow(r, f);
    }
  }
}
