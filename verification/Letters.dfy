/** The letter of a whole input, decomposed: the exact evidence for every band, and the exact conditions for D and F. */
module Letters {
  import opened GradeTypes
  import opened Scoring
  import opened Tree
  import opened PendingRule
  import opened Engine
  import opened Evidence

  function RawLetter(input: Input): Letter { BandOf(LetterScore(input)) }

  // ---- The worst row comes first ----

  lemma InsertedHead(x: RowResult, s: seq<RowResult>)
    ensures s == [] ==> InsertRow(x, s)[0] == x
    ensures s != [] ==> InsertRow(x, s)[0] == if RowBefore(x, s[0]) then x else s[0]
  {
  }

  lemma {:induction false} HeadIsWorst(s: seq<RowResult>)
    requires s != []
    ensures SortRows(s)[0] in s
    ensures forall x :: x in s ==> x.score <= SortRows(s)[0].score
  {
    var n := |s| - 1;
    assert forall x :: x in s <==> x in s[..n] || x == s[n];
    InsertedHead(s[n], SortRows(s[..n]));
    if n > 0 {
      HeadIsWorst(s[..n]);
    }
  }

  lemma GradedScore(r: Row)
    ensures GradeRow(r).score == RowScore(r)
  {
    hide RowVuln, RowScore, RowUpkeep, RowLetter;
  }

  lemma WorstRow(input: Input)
    ensures forall r :: r in RowsOf(input) ==> RowScore(r) <= RowOrder(input)[0].score
    ensures exists r :: r in RowsOf(input) && RowScore(r) == RowOrder(input)[0].score
  {
    hide GradeRow, RowScore, SortRows;
    var rows, g := RowsOf(input), GradeRows(RowsOf(input));
    HeadIsWorst(g);
    forall r | r in rows ensures RowScore(r) <= SortRows(g)[0].score {
      var i :| 0 <= i < |rows| && rows[i] == r;
      assert g[i] in g;
      GradedScore(r);
    }
    var i :| 0 <= i < |g| && g[i] == SortRows(g)[0];
    assert rows[i] in rows;
    GradedScore(rows[i]);
  }

  // ---- Evidence ----

  ghost predicate FindingEvidence(input: Input, l: Letter) {
    exists r :: r in RowsOf(input) && SomeAlone(r, l)
  }

  ghost predicate UpkeepEvidence(input: Input, l: Letter) {
    exists r :: r in RowsOf(input) && AtLeast(BandOf(RowUpkeep(r)), l)
  }

  ghost predicate TreeEvidence(input: Input, l: Letter) {
    || input.checksumMismatch
    || |CalledKeys(RowsOf(input))| >= TREE_CALLED_FINDINGS
    || (l != LetterF && |ReachedKeys(RowsOf(input))| >= TREE_IMPORTED_OR_CALLED)
  }

  ghost predicate HasEvidence(input: Input, l: Letter) {
    l == LetterA || FindingEvidence(input, l) || UpkeepEvidence(input, l) || TreeEvidence(input, l)
  }

  lemma RowAtLeast(r: Row, l: Letter)
    ensures AtLeast(BandOf(RowScore(r)), l) <==>
      || l == LetterA || SomeAlone(r, l) || AtLeast(BandOf(RowUpkeep(r)), l)
      || (r.testOnly != Yes && |RowHighIds(r)| >= TREE_CALLED_FINDINGS)
  {
    RowVulnBand(r, l);
  }

  lemma {:induction false} InjectionCount<A, B>(s: set<A>, t: set<B>, f: A -> B)
    requires forall a :: a in s ==> f(a) in t
    requires forall a, b :: a in s && b in s && f(a) == f(b) ==> a == b
    ensures |s| <= |t|
    decreases |s|
  {
    if s != {} {
      var a :| a in s;
      InjectionCount(s - {a}, t - {f(a)}, f);
    }
  }

  /** A row's own count of called high advisories is part of the whole-tree count. */
  lemma RowCountBelowTree(rows: seq<Row>, r: Row)
    requires r in rows && r.testOnly != Yes
    ensures |RowHighIds(r)| <= |CalledKeys(rows)|
  {
    var f := (id: string) => Key(r.module_, id);
    forall id | id in RowHighIds(r) ensures f(id) in CalledKeys(rows) {
      var x :| x in CalledOf(r) && HighOrCritical(x.sev) && x.finding.id == id;
      ScoredFromFinding(r, x);
      assert CountsCalled(r, x.finding);
    }
    InjectionCount(RowHighIds(r), CalledKeys(rows), f);
  }

  /** A named called critical or known-exploited finding already makes its own row an F. */
  lemma NamedRulesNeverBeatTheRow(input: Input)
    ensures var met := AllMet(RowsOf(input), |RowsOf(input)|);
      KeepSmallest(ExploitedIds(met)) != "" || KeepSmallest(CriticalIds(met)) != "" ==> FindingEvidence(input, LetterF)
  {
    var rows := RowsOf(input);
    var met := AllMet(rows, |rows|);
    KeptUnlessLastIsEmpty(ExploitedIds(met));
    KeptUnlessLastIsEmpty(CriticalIds(met));
    if ExploitedIds(met) != [] || CriticalIds(met) != [] {
      var x := SomeMet(met);
      AllMetIsAll(rows, |rows|, x);
      assert rows[..|rows|] == rows;
      assert AtLeast(Alone(x.row, x.finding), LetterF);
      assert SomeAlone(x.row, LetterF);
    }
  }

  lemma {:induction false} SomeMet(met: seq<Met>) returns (x: Met)
    requires ExploitedIds(met) != [] || CriticalIds(met) != []
    ensures x in met && (CountsCritical(x.row, x.finding) || CountsExploited(x.row, x.finding))
  {
    x := met[|met| - 1];
    if !CountsCritical(x.row, x.finding) && !CountsExploited(x.row, x.finding) {
      x := SomeMet(met[..|met| - 1]);
    }
  }

  ghost predicate SomeRow(input: Input, l: Letter) {
    exists r :: r in RowsOf(input) && AtLeast(BandOf(RowScore(r)), l)
  }

  predicate TreeReaches(input: Input, l: Letter) {
    TreeRuleOf(input).Some? && AtLeast(BandOf(TreeRuleOf(input).value.score), l)
  }

  lemma RawAboveAll(input: Input, l: Letter)
    requires SomeRow(input, l) || TreeReaches(input, l)
    ensures AtLeast(RawLetter(input), l)
  {
    WorstRow(input);
    var top := RowOrder(input)[0].score;
    assert LetterScore(input) >= top;
    if r :| r in RowsOf(input) && AtLeast(BandOf(RowScore(r)), l) {
      BandMonotone(RowScore(r), LetterScore(input));
    } else {
      BandMonotone(TreeRuleOf(input).value.score, LetterScore(input));
    }
  }

  /** The letter is the worst row's, or the whole-tree rule's where that is worse. */
  lemma RawIsWorst(input: Input, l: Letter)
    ensures AtLeast(RawLetter(input), l) <==> SomeRow(input, l) || TreeReaches(input, l)
  {
    if SomeRow(input, l) || TreeReaches(input, l) {
      RawAboveAll(input, l);
    } else {
      WorstRow(input);
      var worst :| worst in RowsOf(input) && RowScore(worst) == RowOrder(input)[0].score;
      assert RaisingRule(input).Some? ==> RawLetter(input) == BandOf(TreeRuleOf(input).value.score);
      assert RaisingRule(input).None? ==> RawLetter(input) == BandOf(RowScore(worst));
    }
  }

  lemma RowGivesEvidence(input: Input, r: Row, l: Letter)
    requires r in RowsOf(input) && AtLeast(BandOf(RowScore(r)), l)
    ensures HasEvidence(input, l)
  {
    RowAtLeast(r, l);
    if r.testOnly != Yes { RowCountBelowTree(RowsOf(input), r); }
  }

  lemma RowsGiveEvidence(input: Input, l: Letter)
    ensures SomeRow(input, l) ==> HasEvidence(input, l)
    ensures l == LetterA || FindingEvidence(input, l) || UpkeepEvidence(input, l) ==> SomeRow(input, l)
  {
    if r :| r in RowsOf(input) && AtLeast(BandOf(RowScore(r)), l) {
      RowGivesEvidence(input, r, l);
    } else if r :| r in RowsOf(input) && (l == LetterA || SomeAlone(r, l) || AtLeast(BandOf(RowUpkeep(r)), l)) {
      RowAtLeast(r, l);
    } else {
      assert RowsOf(input)[0] in RowsOf(input);
    }
  }

  lemma TreeGivesEvidence(input: Input, l: Letter)
    ensures TreeReaches(input, l) ==> FindingEvidence(input, LetterF) || l == LetterA || TreeEvidence(input, l)
    ensures TreeEvidence(input, l) ==> TreeReaches(input, l) || FindingEvidence(input, LetterF)
  {
    NamedRulesNeverBeatTheRow(input);
  }

  lemma FindingEvidenceDown(input: Input, l: Letter)
    requires FindingEvidence(input, LetterF)
    ensures FindingEvidence(input, l)
  {
    hide Alone, RowsOf;
    var r :| r in RowsOf(input) && SomeAlone(r, LetterF);
    var f :| f in r.findings && AtLeast(Alone(r, f), LetterF);
    assert AtLeast(Alone(r, f), l);
    assert SomeAlone(r, l);
  }

  /** The letter is at least l exactly when there is evidence for l. */
  lemma LetterIsEvidence(input: Input, l: Letter)
    ensures AtLeast(RawLetter(input), l) <==> HasEvidence(input, l)
  {
    RawIsWorst(input, l);
    RowsGiveEvidence(input, l);
    TreeGivesEvidence(input, l);
    if FindingEvidence(input, LetterF) {
      FindingEvidenceDown(input, l);
    }
  }

  // ---- D and F exactly ----

  ghost predicate SomeCritical(input: Input) {
    exists r, f :: r in RowsOf(input) && f in r.findings && CountsCritical(r, f)
  }

  ghost predicate SomeExploited(input: Input) {
    exists r, f :: r in RowsOf(input) && f in r.findings && CountsExploited(r, f)
  }

  ghost predicate SomeCalledHigh(input: Input) {
    exists r, f :: r in RowsOf(input) && f in r.findings && CountsCalled(r, f)
  }

  lemma AloneBands(r: Row, f: Finding)
    ensures AtLeast(Alone(r, f), LetterF) <==> CountsCritical(r, f) || CountsExploited(r, f)
    ensures AtLeast(Alone(r, f), LetterD) <==> CountsCalled(r, f) || CountsExploited(r, f)
  {
  }

  lemma AtLeastF(input: Input)
    ensures FindingEvidence(input, LetterF) <==> SomeCritical(input) || SomeExploited(input)
    ensures !UpkeepEvidence(input, LetterF)
  {
    forall r, f ensures AtLeast(Alone(r, f), LetterF) <==> CountsCritical(r, f) || CountsExploited(r, f) { AloneBands(r, f); }
    hide Alone, CountsCritical, CountsExploited;
  }

  lemma AtLeastD(input: Input)
    ensures FindingEvidence(input, LetterD) <==> SomeCalledHigh(input) || SomeExploited(input)
    ensures !UpkeepEvidence(input, LetterD)
  {
    forall r, f ensures AtLeast(Alone(r, f), LetterD) <==> CountsCalled(r, f) || CountsExploited(r, f) { AloneBands(r, f); }
    hide Alone, CountsCalled, CountsExploited;
  }

  /** F means a confirmed problem, and exactly these. */
  lemma ExactlyF(input: Input)
    ensures RawLetter(input) == LetterF <==>
      || input.checksumMismatch || SomeCritical(input) || SomeExploited(input)
      || |CalledKeys(RowsOf(input))| >= TREE_CALLED_FINDINGS
  {
    LetterIsEvidence(input, LetterF);
    AtLeastF(input);
    hide RawLetter, FindingEvidence, UpkeepEvidence, SomeCritical, SomeExploited, CalledKeys, ReachedKeys;
  }

  /** D exactly when it is no F and something called is high, or five reached advisories are high or critical: upkeep, a
      test-only dependency or a lone imported finding never makes a D. */
  lemma ExactlyD(input: Input)
    ensures RawLetter(input) == LetterD <==>
      && !input.checksumMismatch && !SomeCritical(input) && !SomeExploited(input)
      && |CalledKeys(RowsOf(input))| < TREE_CALLED_FINDINGS
      && (SomeCalledHigh(input) || |ReachedKeys(RowsOf(input))| >= TREE_IMPORTED_OR_CALLED)
  {
    ExactlyF(input);
    LetterIsEvidence(input, LetterD);
    AtLeastD(input);
    hide RawLetter, FindingEvidence, UpkeepEvidence, SomeCritical, SomeExploited, SomeCalledHigh, CalledKeys, ReachedKeys;
  }

  // ---- C and B exactly ----

  predicate Reached(r: Row, f: Finding) { ScoreFinding(f, r).tier != TierGraphOnly }

  /** Scored as medium or worse, or called and known to be exploited. */
  predicate Weighs(r: Row, f: Finding) { f.severity != Low || (f.exploited && ScoreFinding(f, r).tier == TierCalled) }

  /** In a confirmed test-only dependency only a called high, critical or exploited finding weighs enough for a C. */
  predicate Weighty(r: Row, f: Finding) {
    if r.testOnly != Yes then Reached(r, f) && Weighs(r, f)
    else ScoreFinding(f, r).tier == TierCalled && (HighOrCritical(f.severity) || f.exploited)
  }

  ghost predicate SomeWeighty(input: Input) {
    exists r, f :: r in RowsOf(input) && f in r.findings && Weighty(r, f)
  }

  /** In a confirmed test-only dependency a low finding does not count. */
  ghost predicate SomeReached(input: Input) {
    exists r, f :: r in RowsOf(input) && f in r.findings && Reached(r, f) && (r.testOnly != Yes || Weighs(r, f))
  }

  /** The module itself is archived, deprecated or retracted. */
  ghost predicate SelfEnded(input: Input) {
    exists r :: r in RowsOf(input) && r.isSelf && ArchivedOrDeprecated(r.upkeep)
  }

  /** The module itself, or a dependency that is compiled in and not test-only. */
  ghost predicate SomeEnded(input: Input) {
    exists r :: r in RowsOf(input) && ArchivedOrDeprecated(r.upkeep) && (r.isSelf || (r.testOnly != Yes && r.inBuild != No))
  }

  lemma AloneLowBands(r: Row, f: Finding)
    ensures AtLeast(Alone(r, f), LetterC) <==> Weighty(r, f)
    ensures AtLeast(Alone(r, f), LetterB) <==> Reached(r, f) && (r.testOnly != Yes || Weighs(r, f))
  {
  }

  lemma AtLeastC(input: Input)
    ensures FindingEvidence(input, LetterC) <==> SomeWeighty(input)
    ensures UpkeepEvidence(input, LetterC) <==> SelfEnded(input)
  {
    forall r, f ensures AtLeast(Alone(r, f), LetterC) <==> Weighty(r, f) { AloneLowBands(r, f); }
    hide Alone, Weighty;
  }

  lemma AtLeastB(input: Input)
    ensures FindingEvidence(input, LetterB) <==> SomeReached(input)
    ensures UpkeepEvidence(input, LetterB) <==> SomeEnded(input)
  {
    forall r, f ensures AtLeast(Alone(r, f), LetterB) <==> Reached(r, f) && (r.testOnly != Yes || Weighs(r, f)) { AloneLowBands(r, f); }
    hide Alone, Reached, Weighs;
  }

  /** C exactly when it is no worse and a single finding weighs enough, or the module itself has ended. */
  lemma ExactlyC(input: Input)
    ensures RawLetter(input) == LetterC <==> !AtLeast(RawLetter(input), LetterD) && (SomeWeighty(input) || SelfEnded(input))
  {
    LetterIsEvidence(input, LetterC);
    LetterIsEvidence(input, LetterD);
    AtLeastC(input);
    hide RawLetter, FindingEvidence, UpkeepEvidence, SomeWeighty, SelfEnded, CalledKeys, ReachedKeys;
  }

  /** B exactly when it is no worse and some finding is reached or a compiled-in dependency has ended; so A means neither. */
  lemma ExactlyB(input: Input)
    ensures RawLetter(input) == LetterB <==> !AtLeast(RawLetter(input), LetterC) && (SomeReached(input) || SomeEnded(input))
  {
    LetterIsEvidence(input, LetterB);
    LetterIsEvidence(input, LetterC);
    AtLeastB(input);
    hide RawLetter, FindingEvidence, UpkeepEvidence, SomeReached, SomeEnded, CalledKeys, ReachedKeys;
  }

  // ---- Comparing two inputs ----

  lemma LettersByEvidence(a: Input, b: Input)
    requires forall l :: HasEvidence(a, l) ==> HasEvidence(b, l)
    ensures AtLeast(RawLetter(b), RawLetter(a))
  {
    LetterIsEvidence(a, RawLetter(a));
    LetterIsEvidence(b, RawLetter(a));
  }

  lemma SameEvidenceSameLetter(a: Input, b: Input)
    requires forall l :: HasEvidence(a, l) <==> HasEvidence(b, l)
    ensures RawLetter(a) == RawLetter(b)
  {
    LettersByEvidence(a, b);
    LettersByEvidence(b, a);
    SameRank(RawLetter(a), RawLetter(b));
  }

  /** A graded input's verdict: letter, pending check and the unread archived flags that matter. */
  lemma VerdictOf(input: Input)
    ensures GradeMerged(input).pending == PendingOf(input, LetterScore(input))
    ensures GradeMerged(input).letter == if PendingOf(input, LetterScore(input)).Some? then None else Some(RawLetter(input))
  {
  }
}
