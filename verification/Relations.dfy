/** Two inputs that differ only in their findings, and what grading makes of the difference. */
module Relations {
  import opened GradeTypes
  import opened Scoring
  import opened Dedupe
  import opened DedupeLaws
  import opened Tree
  import opened PendingRule
  import opened Engine
  import opened Evidence
  import opened Letters

  // ---- Merged inputs ----

  /** No row of the input lists a vulnerability twice. */
  ghost predicate Clean(input: Input) {
    Disjoint(input.self.findings) && forall i :: 0 <= i < |input.deps| ==> Disjoint(input.deps[i].findings)
  }

  lemma MergedIsClean(input: Input)
    ensures Clean(MergedInput(input))
  {
    MergedDisjoint(input.self.findings);
    forall i | 0 <= i < |input.deps| ensures Disjoint(MergedInput(input).deps[i].findings) {
      MergedDisjoint(input.deps[i].findings);
    }
  }

  lemma CleanStaysMerged(input: Input)
    requires Clean(input)
    ensures MergedInput(input) == input && GradeOnceOf(input) == GradeMerged(input)
  {
    DisjointUnchanged(input.self.findings);
    forall i | 0 <= i < |input.deps| ensures MergedRow(input.deps[i]) == input.deps[i] {
      DisjointUnchanged(input.deps[i].findings);
    }
    assert MergedInput(input).deps == input.deps;
  }

  /** Grade's first run, which merges an already merged input, is gradeOnce on the input itself. */
  lemma FirstRun(input: Input)
    ensures GradeOnceOf(MergedInput(input)) == GradeOnceOf(input) == GradeMerged(MergedInput(input))
  {
    MergedIsClean(input);
    CleanStaysMerged(MergedInput(input));
  }

  // ---- Pointwise relations ----

  ghost predicate RowRel(a: Row, b: Row, rel: (Finding, Finding) -> bool) {
    && b == a.(findings := b.findings) && |a.findings| == |b.findings|
    && forall j :: 0 <= j < |a.findings| ==> rel(a.findings[j], b.findings[j])
  }

  ghost predicate InputRel(a: Input, b: Input, rel: (Finding, Finding) -> bool) {
    && b == a.(self := b.self, deps := b.deps) && |a.deps| == |b.deps|
    && RowRel(a.self, b.self, rel)
    && forall i :: 0 <= i < |a.deps| ==> RowRel(a.deps[i], b.deps[i], rel)
  }

  lemma RowsRelated(a: Input, b: Input, rel: (Finding, Finding) -> bool)
    requires InputRel(a, b, rel)
    ensures |RowsOf(a)| == |RowsOf(b)| && forall i :: 0 <= i < |RowsOf(a)| ==> RowRel(RowsOf(a)[i], RowsOf(b)[i], rel)
  {
  }

  /** The same advisory, perhaps with another severity, reachability or status. */
  predicate SameAdvisory(f: Finding, g: Finding) { g.id == f.id && g.aliases == f.aliases }

  lemma SameAdvisoryKeepsClean(a: Input, b: Input)
    requires Clean(a) && InputRel(a, b, SameAdvisory)
    ensures Clean(b)
  {
    KeepsDisjoint(a.self, b.self);
    forall i | 0 <= i < |b.deps| ensures Disjoint(b.deps[i].findings) {
      KeepsDisjoint(a.deps[i], b.deps[i]);
    }
  }

  lemma KeepsDisjoint(a: Row, b: Row)
    requires Disjoint(a.findings) && RowRel(a, b, SameAdvisory)
    ensures Disjoint(b.findings)
  {
    forall i, j | 0 <= i < j < |b.findings| ensures !Shares(b.findings[i], b.findings[j]) {
      assert SameAdvisory(a.findings[i], b.findings[i]) && SameAdvisory(a.findings[j], b.findings[j]);
      assert !Shares(a.findings[i], a.findings[j]);
    }
  }

  /** What withholds the letter reads no finding. */
  lemma PendingIgnoresFindings(a: Input, b: Input, rel: (Finding, Finding) -> bool, s: int, t: int)
    requires InputRel(a, b, rel) && BandOf(s) == BandOf(t)
    ensures PendingOf(a, s) == PendingOf(b, t)
  {
    if d :| d in a.deps && Withholds(d, s) {
      var i :| 0 <= i < |a.deps| && a.deps[i] == d;
      assert b.deps[i] in b.deps && Withholds(b.deps[i], t);
    }
    if d :| d in b.deps && Withholds(d, t) {
      var i :| 0 <= i < |b.deps| && b.deps[i] == d;
      assert a.deps[i] in a.deps && Withholds(a.deps[i], s);
    }
  }

  // ---- A finding that counts for more ----

  /** g counts for at least as much as f on every row of its kind. */
  ghost predicate Dominates(a: Row, f: Finding, g: Finding) {
    && g.id == f.id
    && AtLeast(Alone(a, g), Alone(a, f))
    && (CountsCalled(a, f) ==> CountsCalled(a, g))
    && (CountsReached(a, f) ==> CountsReached(a, g))
  }

  ghost predicate RowDominated(a: Row, b: Row) {
    && b == a.(findings := b.findings) && |a.findings| == |b.findings|
    && forall j :: 0 <= j < |a.findings| ==> Dominates(a, a.findings[j], b.findings[j])
  }

  ghost predicate Dominated(a: Input, b: Input) {
    && b == a.(self := b.self, deps := b.deps) && |a.deps| == |b.deps|
    && RowDominated(a.self, b.self)
    && forall i :: 0 <= i < |a.deps| ==> RowDominated(a.deps[i], b.deps[i])
  }

  /** CountsCalled and the like read the row's flags, not its findings. */
  lemma FlagsOnly(a: Row, b: Row, f: Finding)
    requires b == a.(findings := b.findings)
    ensures Alone(a, f) == Alone(b, f)
    ensures CountsCalled(a, f) == CountsCalled(b, f) && CountsReached(a, f) == CountsReached(b, f)
  {
  }

  lemma DominatedRow(a: Input, b: Input, i: int, j: int)
    requires Dominated(a, b) && 0 <= i < |RowsOf(a)| && 0 <= j < |RowsOf(a)[i].findings|
    ensures RowsOf(b)[i] in RowsOf(b) && RowsOf(b)[i] == RowsOf(a)[i].(findings := RowsOf(b)[i].findings)
    ensures j < |RowsOf(b)[i].findings| && RowsOf(b)[i].findings[j] in RowsOf(b)[i].findings
    ensures Dominates(RowsOf(a)[i], RowsOf(a)[i].findings[j], RowsOf(b)[i].findings[j])
  {
  }

  lemma SubsetCount<T>(a: set<T>, b: set<T>)
    requires a <= b
    ensures |a| <= |b|
  {
    assert b == a + (b - a);
    assert |b| == |a| + |b - a|;
  }

  lemma KeysGrow(a: Input, b: Input)
    requires Dominated(a, b)
    ensures CalledKeys(RowsOf(a)) <= CalledKeys(RowsOf(b)) && ReachedKeys(RowsOf(a)) <= ReachedKeys(RowsOf(b))
  {
    forall k | k in CalledKeys(RowsOf(a)) ensures k in CalledKeys(RowsOf(b)) {
      var r, f :| r in RowsOf(a) && f in r.findings && CountsCalled(r, f) && k == Key(r.module_, f.id);
      var i :| 0 <= i < |RowsOf(a)| && RowsOf(a)[i] == r;
      var j :| 0 <= j < |r.findings| && r.findings[j] == f;
      DominatedRow(a, b, i, j);
      FlagsOnly(r, RowsOf(b)[i], RowsOf(b)[i].findings[j]);
    }
    forall k | k in ReachedKeys(RowsOf(a)) ensures k in ReachedKeys(RowsOf(b)) {
      var r, f :| r in RowsOf(a) && f in r.findings && CountsReached(r, f) && k == Key(r.module_, f.id);
      var i :| 0 <= i < |RowsOf(a)| && RowsOf(a)[i] == r;
      var j :| 0 <= j < |r.findings| && r.findings[j] == f;
      DominatedRow(a, b, i, j);
      FlagsOnly(r, RowsOf(b)[i], RowsOf(b)[i].findings[j]);
    }
  }

  lemma FindingEvidenceGrows(a: Input, b: Input, l: Letter)
    requires Dominated(a, b) && FindingEvidence(a, l)
    ensures FindingEvidence(b, l)
  {
    var r :| r in RowsOf(a) && SomeAlone(r, l);
    var f :| f in r.findings && AtLeast(Alone(r, f), l);
    var i :| 0 <= i < |RowsOf(a)| && RowsOf(a)[i] == r;
    var j :| 0 <= j < |r.findings| && r.findings[j] == f;
    DominatedRow(a, b, i, j);
    var s, g := RowsOf(b)[i], RowsOf(b)[i].findings[j];
    FlagsOnly(r, s, g);
    hide Alone;
    assert AtLeast(Alone(s, g), l);
    assert SomeAlone(s, l);
  }

  lemma UpkeepEvidenceGrows(a: Input, b: Input, l: Letter)
    requires Dominated(a, b) && UpkeepEvidence(a, l)
    ensures UpkeepEvidence(b, l)
  {
    var r :| r in RowsOf(a) && AtLeast(BandOf(RowUpkeep(r)), l);
    var i :| 0 <= i < |RowsOf(a)| && RowsOf(a)[i] == r;
    assert RowsOf(b)[i] in RowsOf(b) && RowUpkeep(RowsOf(b)[i]) == RowUpkeep(r);
  }

  lemma EvidenceGrows(a: Input, b: Input, l: Letter)
    requires Dominated(a, b) && HasEvidence(a, l)
    ensures HasEvidence(b, l)
  {
    KeysGrow(a, b);
    SubsetCount(CalledKeys(RowsOf(a)), CalledKeys(RowsOf(b)));
    SubsetCount(ReachedKeys(RowsOf(a)), ReachedKeys(RowsOf(b)));
    if FindingEvidence(a, l) { FindingEvidenceGrows(a, b, l); }
    if UpkeepEvidence(a, l) { UpkeepEvidenceGrows(a, b, l); }
    hide FindingEvidence, UpkeepEvidence, CalledKeys, ReachedKeys, Dominated;
  }

  /** Findings that count for more never improve the letter. */
  lemma LetterGrows(a: Input, b: Input)
    requires Dominated(a, b)
    ensures AtLeast(RawLetter(b), RawLetter(a))
  {
    forall l | HasEvidence(a, l) ensures HasEvidence(b, l) { EvidenceGrows(a, b, l); }
    LettersByEvidence(a, b);
  }
}
