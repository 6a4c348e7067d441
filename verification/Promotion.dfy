/** What the called pass could do: promote imported findings to called, before and after the merge. */
module Promotion {
  import opened GradeTypes
  import opened Scoring
  import opened Dedupe
  import opened DedupeLaws
  import opened Tree
  import opened Engine
  import opened Evidence
  import opened Letters
  import opened Relations

  /** The called pass can only move a finding from imported to called. */
  predicate Promotes(f: Finding, g: Finding) { g == f || (f.reach == Imported && g == f.(reach := Called)) }

  /** Some findings of the dependencies are promoted; everything else, Checks included, is as it was. */
  ghost predicate Promoted(a: Input, b: Input) {
    && b == a.(deps := b.deps) && |a.deps| == |b.deps|
    && forall i :: 0 <= i < |a.deps| ==> RowRel(a.deps[i], b.deps[i], Promotes)
  }

  /** A merged finding may also have been undetermined, which is scored as called. */
  predicate Lifts(f: Finding, g: Finding) {
    g == f || (g == f.(reach := Called) && (f.reach == Imported || f.reach == Undetermined))
  }

  ghost predicate Lifted(m: Input, n: Input) {
    && n == m.(deps := n.deps) && |m.deps| == |n.deps|
    && forall i :: 0 <= i < |m.deps| ==> RowRel(m.deps[i], n.deps[i], Lifts)
  }

  // ---- Promotion through the merge ----

  lemma PromotesClass(fs: seq<Finding>, gs: seq<Finding>, i: int)
    requires SameIds(fs, gs) && 0 <= i < |fs| && forall j :: 0 <= j < |fs| ==> Promotes(fs[j], gs[j])
    ensures var g, h := Class(fs, i), Class(gs, i);
      && (HasReach(g, Called) ==> HasReach(h, Called))
      && (HasReach(h, Called) ==> HasReach(g, Called) || HasReach(g, Imported))
      && (HasReach(g, Undetermined) <==> HasReach(h, Undetermined))
      && (HasReach(h, Imported) ==> HasReach(g, Imported))
      && (HasReach(g, Imported) ==> HasReach(h, Imported) || HasReach(h, Called))
      && (HasExploited(g) <==> HasExploited(h))
  {
    hide Class, SameIds;
    SameIdsBack(fs, gs);
    forall f | f in Class(fs, i) ensures exists h :: h in Class(gs, i) && Promotes(f, h) {
      var j := MemberTwin(fs, gs, i, f);
    }
    forall h | h in Class(gs, i) ensures exists f :: f in Class(fs, i) && Promotes(f, h) {
      var j := MemberTwin(gs, fs, i, h);
    }
  }

  lemma LiftsGroup(fs: seq<Finding>, gs: seq<Finding>, i: int)
    requires |fs| == |gs| && 0 <= i < |fs| && forall j :: 0 <= j < |fs| ==> Promotes(fs[j], gs[j])
    ensures Lifts(GroupValue(fs, i), GroupValue(gs, i))
  {
    hide GroupValue, Unlinked, HasReach, HasExploited, Class, SameIds;
    SameCoreGroup(fs, gs, i);
    if !Unlinked(fs, i) {
      PromotesClass(fs, gs, i);
      LiftsCore(GroupValue(fs, i), GroupValue(gs, i));
    }
  }

  lemma LiftsCore(f: Finding, g: Finding)
    requires SameCore(f, g) && f.exploited == g.exploited
    requires g.reach == f.reach || (g.reach == Called && (f.reach == Imported || f.reach == Undetermined))
    ensures Lifts(f, g)
  {
  }

  lemma PromotedRow(a: Row, b: Row)
    requires RowRel(a, b, Promotes)
    ensures RowRel(MergedRow(a), MergedRow(b), Lifts)
  {
    var fs, gs := a.findings, b.findings;
    forall j | 0 <= j < |fs| ensures SameCore(fs[j], gs[j]) { assert Promotes(fs[j], gs[j]); }
    SameCoresSameIds(fs, gs);
    SameIdsSameLeaders(fs, gs, |fs|);
    hide GroupValue, Promotes, Lifts, SameIds;
    var l := LeadersUpTo(fs, |fs|);
    forall k | 0 <= k < |l| ensures Lifts(Merged(fs)[k], Merged(gs)[k]) {
      assert l[k] in l;
      LiftsGroup(fs, gs, l[k]);
    }
  }

  /** Promoting raw findings lifts the merged ones: a group that mixes imported with undetermined keeps its tier. */
  lemma PromotedMerged(a: Input, b: Input)
    requires Promoted(a, b)
    ensures Lifted(MergedInput(a), MergedInput(b))
  {
    hide Merged, Promotes, Lifts;
    forall i | 0 <= i < |a.deps| ensures RowRel(MergedInput(a).deps[i], MergedInput(b).deps[i], Lifts) {
      PromotedRow(a.deps[i], b.deps[i]);
    }
  }

  // ---- Everything promoted ----

  function UpFinding(f: Finding): Finding { if f.reach == Imported then f.(reach := Called) else f }

  function UpRow(r: Row): Row { MapRow(r, (f: Finding) => UpFinding(f)) }

  function UpInput(m: Input): Input {
    m.(deps := seq(|m.deps|, i requires 0 <= i < |m.deps| => UpRow(m.deps[i])))
  }

  lemma UpIsPromoted(a: Input)
    ensures Promoted(a, UpInput(a))
  {
  }

  lemma LiftDominates(r: Row, f: Finding, g: Finding)
    requires Lifts(f, g)
    ensures Dominates(r, f, g) && Dominates(r, g, UpFinding(f))
  {
    var s, t := ScoreFinding(f, r), ScoreFinding(g, r);
    FinishMonotone(r.testOnly, s.score, s.tier == TierCalled && f.exploited, t.score, t.tier == TierCalled && g.exploited);
    var u := ScoreFinding(UpFinding(f), r);
    FinishMonotone(r.testOnly, t.score, t.tier == TierCalled && g.exploited, u.score, u.tier == TierCalled && f.exploited);
    BandMonotone(AloneScore(r, f), AloneScore(r, g));
    BandMonotone(AloneScore(r, g), AloneScore(r, UpFinding(f)));
  }

  lemma SameDominates(r: Row)
    ensures RowDominated(r, r)
  {
  }

  lemma LiftedRow(a: Row, b: Row)
    requires RowRel(a, b, Lifts)
    ensures RowDominated(a, b) && RowDominated(b, UpRow(a))
  {
    hide Dominates, Lifts;
    forall j | 0 <= j < |a.findings|
      ensures Dominates(a, a.findings[j], b.findings[j]) && Dominates(b, b.findings[j], UpFinding(a.findings[j])) {
      LiftDominates(a, a.findings[j], b.findings[j]);
      LiftDominates(b, a.findings[j], b.findings[j]);
    }
  }

  /** Every promotion lies between nothing promoted and everything promoted. */
  lemma LiftedBetween(m: Input, n: Input)
    requires Lifted(m, n)
    ensures AtLeast(RawLetter(n), RawLetter(m)) && AtLeast(RawLetter(UpInput(m)), RawLetter(n))
  {
    hide RowDominated, RawLetter, AtLeast, UpRow, Lifts;
    SameDominates(m.self);
    forall i | 0 <= i < |m.deps| ensures RowDominated(m.deps[i], n.deps[i]) && RowDominated(n.deps[i], UpInput(m).deps[i]) {
      LiftedRow(m.deps[i], n.deps[i]);
    }
    UpKeepsRows(m);
    LetterGrows(m, n);
    LetterGrows(n, UpInput(m));
  }

  lemma UpKeepsRows(m: Input)
    ensures |UpInput(m).deps| == |m.deps| && UpInput(m) == m.(deps := UpInput(m).deps)
  {
  }

  // ---- When promotion cannot change the letter ----

  /** Nothing that is imported would by itself grade worse than the letter when called, and the reached high and critical
      advisories are too few to make an F together. */
  ghost predicate Settled(m: Input) {
    || RawLetter(m) == LetterF
    || (&& |ReachedKeys(RowsOf(m))| < TREE_CALLED_FINDINGS
        && forall d, f :: d in m.deps && f in d.findings && f.reach == Imported ==> AtLeast(RawLetter(m), Alone(d, f.(reach := Called))))
  }

  lemma UpRowsAre(m: Input, r: Row)
    ensures r in RowsOf(UpInput(m)) <==> r == m.self || exists d :: d in m.deps && r == UpRow(d)
  {
    hide UpRow;
    if d :| d in m.deps && r == UpRow(d) {
      var i :| 0 <= i < |m.deps| && m.deps[i] == d;
      assert UpInput(m).deps[i] == r;
    }
    if r in UpInput(m).deps {
      var i :| 0 <= i < |m.deps| && UpInput(m).deps[i] == r;
      assert m.deps[i] in m.deps;
    }
  }

  lemma UpRowFindings(d: Row, g: Finding)
    ensures g in UpRow(d).findings <==> exists f :: f in d.findings && g == UpFinding(f)
    ensures UpRow(d) == d.(findings := UpRow(d).findings)
  {
    hide UpFinding;
    if f :| f in d.findings && g == UpFinding(f) {
      var j :| 0 <= j < |d.findings| && d.findings[j] == f;
      assert UpRow(d).findings[j] == g;
    }
    if g in UpRow(d).findings {
      var j :| 0 <= j < |d.findings| && UpRow(d).findings[j] == g;
      assert d.findings[j] in d.findings;
    }
  }

  lemma UpCounts(d: Row, f: Finding)
    ensures CountsCalled(UpRow(d), UpFinding(f)) <==> CountsReached(d, f)
    ensures CountsReached(UpRow(d), UpFinding(f)) <==> CountsReached(d, f)
    ensures d.isSelf ==> (CountsCalled(d, f) <==> CountsReached(d, f))
    ensures UpFinding(f).id == f.id && UpRow(d).module_ == d.module_
    ensures Alone(UpRow(d), UpFinding(f)) == if f.reach == Imported then Alone(d, f.(reach := Called)) else Alone(d, f)
  {
  }

  /** With everything promoted, what is reached is called. */
  lemma UpKeys(m: Input)
    requires m.self.isSelf
    ensures CalledKeys(RowsOf(UpInput(m))) == ReachedKeys(RowsOf(m)) == ReachedKeys(RowsOf(UpInput(m)))
  {
    hide CountsCalled, CountsReached, UpRow, UpFinding, UpInput, Alone;
    var n := UpInput(m);
    forall k ensures k in ReachedKeys(RowsOf(m)) <==> k in CalledKeys(RowsOf(n)) { UpKey(m, k); }
    forall k ensures k in ReachedKeys(RowsOf(m)) <==> k in ReachedKeys(RowsOf(n)) { UpKey(m, k); }
  }

  lemma UpKey(m: Input, k: Key)
    requires m.self.isSelf
    ensures k in ReachedKeys(RowsOf(m)) <==> k in CalledKeys(RowsOf(UpInput(m)))
    ensures k in ReachedKeys(RowsOf(m)) <==> k in ReachedKeys(RowsOf(UpInput(m)))
  {
    hide CountsCalled, CountsReached, UpRow, UpFinding, UpInput, Alone;
    var n := UpInput(m);
    UpRowsAre(m, m.self);
    if r, f :| r in RowsOf(m) && f in r.findings && CountsReached(r, f) && k == Key(r.module_, f.id) {
      UpCounts(r, f);
      if r in m.deps {
        UpRowsAre(m, UpRow(r));
        UpRowFindings(r, UpFinding(f));
      }
    }
    if s, g :| s in RowsOf(n) && g in s.findings && (CountsCalled(s, g) || CountsReached(s, g)) && k == Key(s.module_, g.id) {
      UpRowsAre(m, s);
      if s == m.self {
        UpCounts(s, g);
        assert m.self in RowsOf(m);
      } else {
        var d :| d in m.deps && s == UpRow(d);
        UpRowFindings(d, g);
        var f :| f in d.findings && g == UpFinding(f);
        UpCounts(d, f);
        assert d in RowsOf(m);
      }
    }
  }

  ghost predicate ImportedReaches(m: Input, l: Letter) {
    exists d, f :: d in m.deps && f in d.findings && f.reach == Imported && AtLeast(Alone(d, f.(reach := Called)), l)
  }

  lemma UpFindingEvidence(m: Input, l: Letter)
    ensures FindingEvidence(UpInput(m), l) ==> FindingEvidence(m, l) || ImportedReaches(m, l)
    ensures ImportedReaches(m, l) ==> FindingEvidence(UpInput(m), l)
  {
    hide Alone, UpRow, UpInput, AtLeast, CountsCalled, CountsReached;
    if s :| s in RowsOf(UpInput(m)) && SomeAlone(s, l) {
      UpRowsAre(m, s);
      var g :| g in s.findings && AtLeast(Alone(s, g), l);
      if s == m.self {
        assert m.self in RowsOf(m);
      } else {
        var d :| d in m.deps && s == UpRow(d);
        UpRowFindings(d, g);
        var f :| f in d.findings && g == UpFinding(f);
        UpCounts(d, f);
        assert d in RowsOf(m);
        if f.reach != Imported { assert SomeAlone(d, l); }
      }
    }
    if d, f :| d in m.deps && f in d.findings && f.reach == Imported && AtLeast(Alone(d, f.(reach := Called)), l) {
      UpRowsAre(m, UpRow(d));
      UpRowFindings(d, UpFinding(f));
      UpCounts(d, f);
      assert SomeAlone(UpRow(d), l);
    }
  }

  lemma UpUpkeepEvidence(m: Input, l: Letter)
    ensures UpkeepEvidence(UpInput(m), l) ==> UpkeepEvidence(m, l)
  {
    hide UpInput;
    if s :| s in RowsOf(UpInput(m)) && AtLeast(BandOf(RowUpkeep(s)), l) {
      UpRowsAre(m, s);
      if s == m.self {
        assert m.self in RowsOf(m);
      } else {
        var d :| d in m.deps && s == UpRow(d);
        assert d in RowsOf(m) && RowUpkeep(d) == RowUpkeep(s);
      }
    }
  }

  lemma UpIsLifted(m: Input)
    ensures Lifted(m, UpInput(m))
    ensures UpInput(m).checksumMismatch == m.checksumMismatch && UpInput(m).self == m.self
  {
  }

  /** A settled input keeps its letter: every evidence in the promoted one was there, or is no worse than the letter. */
  lemma SettledStays(m: Input, u: Letter)
    requires m.self.isSelf && Settled(m) && HasEvidence(UpInput(m), u)
    ensures AtLeast(RawLetter(m), u)
  {
    hide RawLetter, UpInput, FindingEvidence, UpkeepEvidence, CalledKeys, ReachedKeys, RowsOf, Alone;
    if RawLetter(m) != LetterF && u != LetterA {
      UpKeys(m);
      UpFindingEvidence(m, u);
      UpUpkeepEvidence(m, u);
      UpIsLifted(m);
      LetterIsEvidence(m, u);
      if d, f :| d in m.deps && f in d.findings && f.reach == Imported && AtLeast(Alone(d, f.(reach := Called)), u) {
        assert AtLeast(RawLetter(m), Alone(d, f.(reach := Called)));
      }
    }
  }

  lemma UnsettledGrows(m: Input)
    requires m.self.isSelf && !Settled(m)
    ensures exists u :: HasEvidence(UpInput(m), u) && !AtLeast(RawLetter(m), u)
  {
    hide RawLetter, UpInput, FindingEvidence, UpkeepEvidence, CalledKeys, ReachedKeys, RowsOf, Alone;
    UpKeys(m);
    if d, f :| d in m.deps && f in d.findings && f.reach == Imported && !AtLeast(RawLetter(m), Alone(d, f.(reach := Called))) {
      var u := Alone(d, f.(reach := Called));
      assert ImportedReaches(m, u);
      UpFindingEvidence(m, u);
      assert HasEvidence(UpInput(m), u);
    } else {
      assert HasEvidence(UpInput(m), LetterF) && !AtLeast(RawLetter(m), LetterF);
    }
  }

  /** Promoting everything keeps the letter if and only if the input is settled. */
  lemma UpExact(m: Input)
    requires m.self.isSelf
    ensures RawLetter(UpInput(m)) == RawLetter(m) <==> Settled(m)
  {
    hide RawLetter, UpInput, HasEvidence, Settled;
    UpIsLifted(m);
    LiftedBetween(m, UpInput(m));
    if Settled(m) {
      LetterIsEvidence(UpInput(m), RawLetter(UpInput(m)));
      SettledStays(m, RawLetter(UpInput(m)));
      SameRank(RawLetter(m), RawLetter(UpInput(m)));
    } else {
      UnsettledGrows(m);
      var u :| HasEvidence(UpInput(m), u) && !AtLeast(RawLetter(m), u);
      LetterIsEvidence(UpInput(m), u);
    }
  }
}
