/** The grade does not depend on the order in which dependencies and findings are listed. */
module OrderIndependence {
  import opened GradeTypes
  import opened Ordering
  import opened Scoring
  import opened Dedupe
  import opened DedupeLaws
  import opened Tree
  import opened PendingRule
  import opened Engine
  import opened Letters
  import opened Relations
  import opened Sandwich

  // ---- preferVuln with the score in front is a strict total order on rows told apart by name ----

  predicate SameName(a: RowResult, b: RowResult) { a.isSelf == b.isSelf && a.module_ == b.module_ }

  lemma RowBeforeIrreflexive(a: RowResult)
    ensures !RowBefore(a, a)
  {
    LessIrreflexive(a.module_);
  }

  lemma RowBeforeTransitive(a: RowResult, b: RowResult, c: RowResult)
    requires RowBefore(a, b) && RowBefore(b, c)
    ensures RowBefore(a, c)
  {
    if Less(a.module_, b.module_) && Less(b.module_, c.module_) { LessTransitive(a.module_, b.module_, c.module_); }
  }

  lemma RowBeforeTotal(a: RowResult, b: RowResult)
    requires !SameName(a, b)
    ensures RowBefore(a, b) || RowBefore(b, a)
  {
    LessTotal(a.module_, b.module_);
  }

  ghost predicate Strict(s: seq<RowResult>) { forall i, j :: 0 <= i < j < |s| ==> RowBefore(s[i], s[j]) }

  ghost predicate Apart(s: seq<RowResult>) { forall i, j :: 0 <= i < j < |s| ==> !SameName(s[i], s[j]) }

  lemma {:induction false} InsertStrict(x: RowResult, s: seq<RowResult>)
    requires Strict(s) && forall y :: y in s ==> !SameName(x, y)
    ensures Strict(InsertRow(x, s))
    ensures forall y :: y in InsertRow(x, s) <==> y == x || y in s
  {
    hide RowBefore, SameName;
    if s != [] {
      assert s[0] in s;
      if RowBefore(x, s[0]) {
        forall j | 0 <= j < |s| ensures RowBefore(x, s[j]) {
          if j > 0 { RowBeforeTransitive(x, s[0], s[j]); }
        }
      } else {
        RowBeforeTotal(x, s[0]);
        InsertStrict(x, s[1..]);
        var r := InsertRow(x, s[1..]);
        forall j | 0 <= j < |r| ensures RowBefore(s[0], r[j]) {
          assert r[j] in r;
          if r[j] != x {
            var k :| 0 <= k < |s[1..]| && s[1..][k] == r[j];
            assert RowBefore(s[0], s[k + 1]);
          }
        }
        assert s == [s[0]] + s[1..];
      }
    }
  }

  lemma {:induction false} SortStrict(s: seq<RowResult>)
    requires Apart(s)
    ensures Strict(SortRows(s)) && forall y :: y in SortRows(s) <==> y in s
  {
    if s != [] {
      var n := |s| - 1;
      SortStrict(s[..n]);
      forall y | y in s[..n] ensures !SameName(s[n], y) {
        var k :| 0 <= k < n && s[k] == y;
        assert !SameName(s[k], s[n]);
      }
      InsertStrict(s[n], SortRows(s[..n]));
      assert forall y :: y in s <==> y in s[..n] || y == s[n];
    }
  }

  lemma StrictHead(a: seq<RowResult>, x: RowResult)
    requires Strict(a) && x in a
    ensures x == a[0] || RowBefore(a[0], x)
    ensures x in a[1..] <==> x != a[0]
  {
    var i :| 0 <= i < |a| && a[i] == x;
    RowBeforeIrreflexive(a[0]);
    if i > 0 { assert a[1..][i - 1] == x && RowBefore(a[0], a[i]); }
    if x in a[1..] {
      var k :| 0 <= k < |a| - 1 && a[1..][k] == x;
      assert RowBefore(a[0], a[k + 1]);
    }
    hide RowBefore;
  }

  /** Two strictly sorted lists of the same rows are the same list: any sort gives this order. */
  lemma {:induction false} StrictUnique(a: seq<RowResult>, b: seq<RowResult>)
    requires Strict(a) && Strict(b) && forall x :: x in a <==> x in b
    ensures a == b
  {
    hide RowBefore;
    assert a != [] ==> a[0] in a && a[0] in b;
    assert b != [] ==> b[0] in b && b[0] in a;
    if a != [] {
      StrictHead(a, b[0]);
      StrictHead(b, a[0]);
      if a[0] != b[0] {
        RowBeforeTransitive(a[0], b[0], a[0]);
        RowBeforeIrreflexive(a[0]);
      }
      forall x ensures x in a[1..] <==> x in b[1..] {
        if x in a { StrictHead(a, x); StrictHead(b, x); }
        assert x in a[1..] ==> x in a;
        assert x in b[1..] ==> x in b;
      }
      StrictUnique(a[1..], b[1..]);
      assert a == [a[0]] + a[1..] && b == [b[0]] + b[1..];
    }
  }

  // ---- One row's findings in another order ----

  /** Every finding has an ID. */
  ghost predicate Named(r: Row) { forall f :: f in r.findings ==> f.id != "" }

  ghost predicate OneEach(fs: seq<Finding>) {
    forall f, g :: f in fs && g in fs && f.id == g.id ==> f == g
  }

  /** The same findings, one for each ID, listed in any order. */
  ghost predicate Reordered(a: Row, b: Row) {
    && b == a.(findings := b.findings) && OneEach(a.findings)
    && forall f :: f in a.findings <==> f in b.findings
  }

  lemma LeadUnique(l: seq<Scored>, m: seq<Scored>)
    requires forall x :: x in l <==> x in m
    requires forall x, y :: x in l && y in l && x.finding.id == y.finding.id ==> x == y
    ensures Lead(l) == Lead(m)
  {
    LeadIsFirst(l);
    LeadIsFirst(m);
    assert l != [] ==> l[0] in l;
    assert m != [] ==> m[0] in m;
    if l != [] {
      var x, y := Lead(l).value, Lead(m).value;
      assert !Leads(x, y) && !Leads(y, x);
      LessTotal(x.finding.id, y.finding.id);
    }
  }

  lemma ScoredSame(a: Row, b: Row, x: Scored)
    requires Reordered(a, b)
    ensures x in ScoreAll(a.findings, a) <==> x in ScoreAll(b.findings, b)
  {
    ScoredIn(a, x);
    ScoredIn(b, x);
    assert x.finding in a.findings <==> x.finding in b.findings;
  }

  lemma ScoredIn(r: Row, x: Scored)
    ensures x in ScoreAll(r.findings, r) <==> x.finding in r.findings && x == ScoreFinding(x.finding, r)
  {
    if x.finding in r.findings && x == ScoreFinding(x.finding, r) {
      var i :| 0 <= i < |r.findings| && r.findings[i] == x.finding;
      assert ScoreAll(r.findings, r)[i] == x;
    }
  }

  lemma TierSame(a: Row, b: Row, tier: Tier)
    requires Reordered(a, b)
    ensures var l, m := OfTier(ScoreAll(a.findings, a), tier), OfTier(ScoreAll(b.findings, b), tier);
      Lead(l) == Lead(m) && HighIds(l) == HighIds(m) && (l == [] <==> m == []) && (ExploitedOf(l) == [] <==> ExploitedOf(m) == [])
  {
    var l, m := OfTier(ScoreAll(a.findings, a), tier), OfTier(ScoreAll(b.findings, b), tier);
    forall x ensures x in l <==> x in m { ScoredSame(a, b, x); }
    forall x, y | x in l && y in l && x.finding.id == y.finding.id ensures x == y {
      ScoredIn(a, x);
      ScoredIn(a, y);
    }
    hide ScoreAll, OfTier, Reordered;
    LeadUnique(l, m);
    EmptySame(l, m);
    forall x ensures x in ExploitedOf(l) <==> x in ExploitedOf(m) {}
    EmptySame(ExploitedOf(l), ExploitedOf(m));
  }

  lemma EmptySame(l: seq<Scored>, m: seq<Scored>)
    requires forall x :: x in l <==> x in m
    ensures l == [] <==> m == []
  {
    assert l != [] ==> l[0] in l;
    assert m != [] ==> m[0] in m;
  }

  lemma ListScoreSame(l: seq<Scored>, m: seq<Scored>, cap: int, bonus: bool)
    requires Lead(l) == Lead(m) && HighIds(l) == HighIds(m) && (l == [] <==> m == [])
    ensures ListScore(l, cap, bonus) == ListScore(m, cap, bonus)
  {
    hide HighIds, Lead;
  }

  lemma VulnScoreSame(testOnly: Tri, fs: seq<Scored>, gs: seq<Scored>)
    requires forall tier :: var l, m := OfTier(fs, tier), OfTier(gs, tier);
      Lead(l) == Lead(m) && HighIds(l) == HighIds(m) && (l == [] <==> m == []) && (ExploitedOf(l) == [] <==> ExploitedOf(m) == [])
    ensures VulnScoreOf(testOnly, fs) == VulnScoreOf(testOnly, gs)
  {
    hide OfTier, ExploitedOf, HighIds, Lead, ListScore;
    ListScoreSame(OfTier(fs, TierCalled), OfTier(gs, TierCalled), 0, true);
    ListScoreSame(OfTier(fs, TierImported), OfTier(gs, TierImported), IMPORTED_CAP, false);
  }

  lemma ReorderedVuln(a: Row, b: Row)
    requires Reordered(a, b)
    ensures RowVuln(a) == RowVuln(b)
  {
    hide OfTier, ExploitedOf, HighIds, Lead, ScoreAll, VulnScoreOf;
    assert a.testOnly == b.testOnly;
    hide Reordered;
    forall tier ensures var l, m := OfTier(ScoreAll(a.findings, a), tier), OfTier(ScoreAll(b.findings, b), tier);
        Lead(l) == Lead(m) && HighIds(l) == HighIds(m) && (l == [] <==> m == []) && (ExploitedOf(l) == [] <==> ExploitedOf(m) == []) {
      TierSame(a, b, tier);
    }
    VulnScoreSame(a.testOnly, ScoreAll(a.findings, a), ScoreAll(b.findings, b));
  }

  lemma ReorderedGraded(a: Row, b: Row)
    requires Reordered(a, b)
    ensures GradeRow(a) == GradeRow(b)
  {
    hide RowVuln;
    ReorderedVuln(a, b);
    assert RowUpkeep(a) == RowUpkeep(b);
    hide RowUpkeep;
  }

  // ---- The whole-tree rule by membership ----

  ghost predicate AllNamed(input: Input) { forall r :: r in RowsOf(input) ==> Named(r) }

  lemma MetNamed(input: Input)
    requires AllNamed(input)
    ensures var met := AllMet(RowsOf(input), |RowsOf(input)|);
      && (KeepSmallest(ExploitedIds(met)) != "" <==> SomeExploited(input))
      && (KeepSmallest(CriticalIds(met)) != "" <==> SomeCritical(input))
  {
    hide AllMet, CriticalIds, ExploitedIds, KeepSmallest, CountsCritical, CountsExploited;
    var rows := RowsOf(input);
    var met := AllMet(rows, |rows|);
    assert rows[..|rows|] == rows;
    hide RowsOf;
    forall x ensures x in met <==> x.row in rows && x.finding in x.row.findings { AllMetIsAll(rows, |rows|, x); }
    IdsOfMet(met);
    KeptUnlessLastIsEmpty(ExploitedIds(met));
    KeptUnlessLastIsEmpty(CriticalIds(met));
    LastNamed(ExploitedIds(met));
    LastNamed(CriticalIds(met));
    if SomeExploited(input) {
      var r, f :| r in rows && f in r.findings && CountsExploited(r, f);
      assert Met(r, f) in met;
    }
    if SomeCritical(input) {
      var r, f :| r in rows && f in r.findings && CountsCritical(r, f);
      assert Met(r, f) in met;
    }
  }

  lemma LastNamed(ids: seq<string>)
    ensures ids != [] ==> ids[|ids| - 1] in ids
  {
  }

  lemma {:induction false} IdsOfMet(met: seq<Met>)
    ensures ExploitedIds(met) != [] <==> exists x :: x in met && CountsExploited(x.row, x.finding)
    ensures CriticalIds(met) != [] <==> exists x :: x in met && CountsCritical(x.row, x.finding)
    ensures forall id :: id in ExploitedIds(met) || id in CriticalIds(met) ==> exists x :: x in met && x.finding.id == id
  {
    hide CountsCritical, CountsExploited;
    if met != [] {
      var n := |met| - 1;
      IdsOfMet(met[..n]);
      assert met == met[..n] + [met[n]];
    }
  }

  /** Some row with r's name and flags holds f. */
  ghost predicate HasTwin(rows: seq<Row>, r: Row, f: Finding) {
    exists s :: s in rows && f in s.findings && s == r.(findings := s.findings)
  }

  /** Two inputs whose rows hold the same findings under the same flags and names. */
  ghost predicate SameTree(a: Input, b: Input) {
    && a.checksumMismatch == b.checksumMismatch
    && (forall r, f :: r in RowsOf(a) && f in r.findings ==> HasTwin(RowsOf(b), r, f))
    && forall s, f :: s in RowsOf(b) && f in s.findings ==> HasTwin(RowsOf(a), s, f)
  }

  lemma TwinCounts(rows: seq<Row>, r: Row, f: Finding) returns (s: Row)
    requires HasTwin(rows, r, f)
    ensures s in rows && f in s.findings && s.module_ == r.module_
    ensures CountsCalled(s, f) == CountsCalled(r, f) && CountsReached(s, f) == CountsReached(r, f)
    ensures CountsExploited(s, f) == CountsExploited(r, f) && CountsCritical(s, f) == CountsCritical(r, f)
  {
    s :| s in rows && f in s.findings && s == r.(findings := s.findings);
  }

  lemma TwinKeys(a: Input, b: Input)
    requires forall r, f :: r in RowsOf(a) && f in r.findings ==> HasTwin(RowsOf(b), r, f)
    ensures CalledKeys(RowsOf(a)) <= CalledKeys(RowsOf(b)) && ReachedKeys(RowsOf(a)) <= ReachedKeys(RowsOf(b))
  {
    hide HasTwin, CountsCalled, CountsReached, RowsOf;
    forall k | k in CalledKeys(RowsOf(a)) ensures k in CalledKeys(RowsOf(b)) {
      var r, f :| r in RowsOf(a) && f in r.findings && CountsCalled(r, f) && k == Key(r.module_, f.id);
      var s := TwinCounts(RowsOf(b), r, f);
    }
    forall k | k in ReachedKeys(RowsOf(a)) ensures k in ReachedKeys(RowsOf(b)) {
      var r, f :| r in RowsOf(a) && f in r.findings && CountsReached(r, f) && k == Key(r.module_, f.id);
      var s := TwinCounts(RowsOf(b), r, f);
    }
  }

  lemma TwinRules(a: Input, b: Input)
    requires forall r, f :: r in RowsOf(a) && f in r.findings ==> HasTwin(RowsOf(b), r, f)
    ensures (SomeExploited(a) ==> SomeExploited(b)) && (SomeCritical(a) ==> SomeCritical(b))
  {
    hide HasTwin, CountsExploited, CountsCritical, RowsOf;
    if SomeExploited(a) {
      var r, f :| r in RowsOf(a) && f in r.findings && CountsExploited(r, f);
      var s := TwinCounts(RowsOf(b), r, f);
    }
    if SomeCritical(a) {
      var r, f :| r in RowsOf(a) && f in r.findings && CountsCritical(r, f);
      var s := TwinCounts(RowsOf(b), r, f);
    }
  }

  lemma SameTreeRule(a: Input, b: Input)
    requires SameTree(a, b) && AllNamed(a) && AllNamed(b)
    ensures TreeRuleOf(a) == TreeRuleOf(b)
  {
    hide AllNamed, SomeExploited, SomeCritical, CalledKeys, ReachedKeys, AllMet, ExploitedIds, CriticalIds, KeepSmallest;
    assert a.checksumMismatch == b.checksumMismatch;
    TwinKeys(a, b);
    TwinKeys(b, a);
    TwinRules(a, b);
    TwinRules(b, a);
    hide SameTree, HasTwin;
    MetNamed(a);
    MetNamed(b);
    assert CalledKeys(RowsOf(a)) == CalledKeys(RowsOf(b)) && ReachedKeys(RowsOf(a)) == ReachedKeys(RowsOf(b));
  }

  // ---- Whole inputs in another order ----

  ghost predicate HasReordered(rows: seq<Row>, r: Row) { exists s :: s in rows && Reordered(r, s) }

  predicate DistinctModules(deps: seq<Row>) {
    forall i, j :: 0 <= i < j < |deps| ==> deps[i].module_ != deps[j].module_
  }

  /** The module under assessment is the only row marked as such, and no dependency is listed twice. */
  predicate WellFormed(input: Input) {
    input.self.isSelf && (forall d :: d in input.deps ==> !d.isSelf) && DistinctModules(input.deps)
  }

  /** The same rows, with the same findings, one for each ID, all in any order. */
  ghost predicate Permuted(a: Input, b: Input) {
    && b == a.(self := b.self, deps := b.deps)
    && Reordered(a.self, b.self)
    && (forall d :: d in a.deps ==> HasReordered(b.deps, d))
    && (forall d :: d in b.deps ==> HasReordered(a.deps, d))
    && WellFormed(a) && WellFormed(b) && AllNamed(a) && AllNamed(b)
  }

  lemma PermutedRow(a: Input, b: Input, r: Row) returns (s: Row)
    requires Permuted(a, b) && r in RowsOf(a)
    ensures s in RowsOf(b) && Reordered(r, s) && (r in a.deps ==> s in b.deps)
  {
    if r in a.deps {
      assert HasReordered(b.deps, r);
      s :| s in b.deps && Reordered(r, s);
    } else {
      s := b.self;
    }
  }

  lemma PermutedBack(a: Input, b: Input)
    requires Permuted(a, b)
    ensures Permuted(b, a)
  {
    hide HasReordered, WellFormed, AllNamed;
  }

  lemma GradedIn(input: Input, x: RowResult)
    ensures x in GradeRows(RowsOf(input)) <==> exists r :: r in RowsOf(input) && x == GradeRow(r)
  {
    hide GradeRow;
    var rows, g := RowsOf(input), GradeRows(RowsOf(input));
    if r :| r in rows && x == GradeRow(r) {
      var i :| 0 <= i < |rows| && rows[i] == r;
      assert g[i] == x;
    }
    if x in g {
      var i :| 0 <= i < |g| && g[i] == x;
      assert rows[i] in rows;
    }
  }

  lemma GradeRowNames(r: Row)
    ensures GradeRow(r).module_ == r.module_ && GradeRow(r).isSelf == r.isSelf
  {
    hide RowVuln, RowScore, RowUpkeep, RowLetter;
  }

  lemma RowsApart(input: Input)
    requires WellFormed(input)
    ensures Apart(GradeRows(RowsOf(input)))
  {
    hide GradeRow;
    var rows, g := RowsOf(input), GradeRows(RowsOf(input));
    forall i, j | 0 <= i < j < |g| ensures !SameName(g[i], g[j]) {
      GradeRowNames(rows[i]);
      GradeRowNames(rows[j]);
      assert rows[j] == input.deps[j - 1] && rows[j] in input.deps;
      if i > 0 { assert rows[i] == input.deps[i - 1]; }
    }
  }

  /** Every row keeps its score and its place. */
  lemma PermutedOrder(a: Input, b: Input)
    requires Permuted(a, b)
    ensures RowOrder(a) == RowOrder(b)
  {
    hide RowBefore, GradeRow, Reordered, RowsOf, GradeRows, HasReordered, Strict, Apart;
    forall x ensures x in GradeRows(RowsOf(a)) <==> x in GradeRows(RowsOf(b)) {
      GradedIn(a, x);
      GradedIn(b, x);
      if x in GradeRows(RowsOf(a)) {
        var r :| r in RowsOf(a) && x == GradeRow(r);
        var s := PermutedRow(a, b, r);
        ReorderedGraded(r, s);
      }
      if x in GradeRows(RowsOf(b)) {
        var r :| r in RowsOf(b) && x == GradeRow(r);
        PermutedBack(a, b);
        var s := PermutedRow(b, a, r);
        ReorderedGraded(r, s);
      }
    }
    RowsApart(a);
    RowsApart(b);
    SortStrict(GradeRows(RowsOf(a)));
    SortStrict(GradeRows(RowsOf(b)));
    StrictUnique(RowOrder(a), RowOrder(b));
  }

  lemma PermutedTwins(a: Input, b: Input)
    requires Permuted(a, b)
    ensures forall r, f :: r in RowsOf(a) && f in r.findings ==> HasTwin(RowsOf(b), r, f)
  {
    forall r, f | r in RowsOf(a) && f in r.findings ensures HasTwin(RowsOf(b), r, f) {
      var s := PermutedRow(a, b, r);
    }
  }

  lemma PermutedTree(a: Input, b: Input)
    requires Permuted(a, b)
    ensures TreeRuleOf(a) == TreeRuleOf(b)
  {
    hide TreeRuleOf, AllNamed, HasTwin, HasReordered, WellFormed, RowsOf, Reordered;
    PermutedTwins(a, b);
    PermutedBack(a, b);
    PermutedTwins(b, a);
    SameTreeRule(a, b);
  }

  lemma PermutedPending(a: Input, b: Input, score: int)
    requires Permuted(a, b)
    ensures PendingOf(a, score) == PendingOf(b, score)
  {
    hide Withholds, BandOf, AllNamed, WellFormed, HasReordered;
    PermutedWithholds(a, b, score);
    PermutedBack(a, b);
    PermutedWithholds(b, a, score);
    assert a.checks == b.checks && a.self.upkeep == b.self.upkeep;
    hide Permuted, Reordered;
  }

  lemma PermutedWithholds(a: Input, b: Input, score: int)
    requires Permuted(a, b)
    ensures (exists d :: d in a.deps && Withholds(d, score)) ==> exists d :: d in b.deps && Withholds(d, score)
  {
    hide BandOf, AllNamed, WellFormed, HasReordered;
    if d :| d in a.deps && Withholds(d, score) {
      var s := PermutedRow(a, b, d);
      assert Withholds(s, score);
    }
  }

  // ---- The unread archived flags ----

  lemma {:induction false} UnreadNamed(deps: seq<Row>, score: int, n: string)
    ensures n in UnreadNames(deps, score) <==> exists d :: d in deps && UnreadMatters(d, score) && d.module_ == n
  {
    hide UnreadMatters;
    if deps != [] {
      UnreadNamed(deps[..|deps| - 1], score, n);
      assert deps == deps[..|deps| - 1] + [deps[|deps| - 1]];
    }
  }

  lemma {:induction false} UnreadDistinct(deps: seq<Row>, score: int)
    requires DistinctModules(deps)
    ensures forall i, j :: 0 <= i < j < |UnreadNames(deps, score)| ==> UnreadNames(deps, score)[i] != UnreadNames(deps, score)[j]
  {
    hide UnreadMatters;
    if deps != [] {
      var k := |deps| - 1;
      UnreadDistinct(deps[..k], score);
      UnreadNamed(deps[..k], score, deps[k].module_);
      forall d | d in deps[..k] ensures d.module_ != deps[k].module_ {
        var i :| 0 <= i < k && deps[i] == d;
      }
    }
  }

  lemma SameDistinct(l: seq<string>, m: seq<string>)
    requires forall x :: x in l <==> x in m
    requires forall i, j :: 0 <= i < j < |l| ==> l[i] != l[j]
    requires forall i, j :: 0 <= i < j < |m| ==> m[i] != m[j]
    ensures multiset(l) == multiset(m)
  {
    forall x ensures multiset(l)[x] == multiset(m)[x] {
      DistinctCounts(l, x);
      DistinctCounts(m, x);
    }
  }

  lemma ArchivedReordered(r: Row, s: Row, score: int)
    requires Reordered(r, s)
    ensures UnreadMatters(r, score) == UnreadMatters(s, score) && r.module_ == s.module_
  {
    hide BandOf, GradeRow, RowScore;
    ReorderedGraded(AsArchived(r), AsArchived(s));
    GradedScore(AsArchived(r));
    GradedScore(AsArchived(s));
  }

  lemma PermutedUnread(a: Input, b: Input, score: int)
    requires Permuted(a, b)
    ensures SortList(UnreadNames(a.deps, score)) == SortList(UnreadNames(b.deps, score))
  {
    hide NonDescending, UnreadMatters, Reordered, AllNamed, UnreadNames, SortList, DistinctModules;
    var l, m := UnreadNames(a.deps, score), UnreadNames(b.deps, score);
    UnreadDistinct(a.deps, score);
    UnreadDistinct(b.deps, score);
    SortNonDescending(l);
    SortNonDescending(m);
    forall n ensures n in l <==> n in m {
      UnreadNamed(a.deps, score, n);
      UnreadNamed(b.deps, score, n);
      UnreadCarries(a, b, score, n);
      PermutedBack(a, b);
      UnreadCarries(b, a, score, n);
    }
    SameDistinct(l, m);
    NonDescendingUnique(SortList(l), SortList(m));
  }

  lemma UnreadCarries(a: Input, b: Input, score: int, n: string)
    requires Permuted(a, b)
    ensures (exists d :: d in a.deps && UnreadMatters(d, score) && d.module_ == n)
        ==> exists d :: d in b.deps && UnreadMatters(d, score) && d.module_ == n
  {
    hide UnreadMatters, Reordered, AllNamed, WellFormed, HasReordered;
    if d :| d in a.deps && UnreadMatters(d, score) && d.module_ == n {
      var s := PermutedRow(a, b, d);
      ArchivedReordered(d, s, score);
    }
  }

  // ---- gradeOnce and Grade ----

  lemma PermutedGraded(a: Input, b: Input)
    requires Permuted(a, b)
    ensures GradeMerged(a) == GradeMerged(b)
  {
    hide Permuted, RowOrder, TreeRuleOf, PendingOf, UnreadNames, SortList, BandOf;
    PermutedOrder(a, b);
    PermutedTree(a, b);
    assert RaisingRule(a) == RaisingRule(b) && DecidingOf(a) == DecidingOf(b) && LetterScore(a) == LetterScore(b);
    PermutedPending(a, b, LetterScore(a));
    PermutedUnread(a, b, LetterScore(a));
  }

  /** A rating of single findings that keeps their ID. */
  ghost predicate KeepsId(g: Finding -> Finding) { forall f: Finding :: g(f).id == f.id }

  lemma MappedIn(r: Row, g: Finding -> Finding, x: Finding)
    ensures x in MapRow(r, g).findings <==> exists f :: f in r.findings && x == g(f)
  {
    var fs := MapRow(r, g).findings;
    if f :| f in r.findings && x == g(f) {
      var i :| 0 <= i < |r.findings| && r.findings[i] == f;
      assert fs[i] == x;
    }
    if x in fs {
      var i :| 0 <= i < |fs| && fs[i] == x;
      assert r.findings[i] in r.findings && x == g(r.findings[i]);
    }
  }

  lemma MappedReordered(r: Row, s: Row, g: Finding -> Finding)
    requires Reordered(r, s) && KeepsId(g)
    ensures Reordered(MapRow(r, g), MapRow(s, g))
  {
    forall x ensures x in MapRow(r, g).findings <==> x in MapRow(s, g).findings {
      MappedIn(r, g, x);
      MappedIn(s, g, x);
    }
    forall x, y | x in MapRow(r, g).findings && y in MapRow(r, g).findings && x.id == y.id ensures x == y {
      MappedIn(r, g, x);
      MappedIn(r, g, y);
    }
  }

  lemma MappedDeps(input: Input, g: Finding -> Finding, d: Row)
    ensures d in MapInput(input, g).deps <==> exists r :: r in input.deps && d == MapRow(r, g)
  {
    hide MapRow;
    var ds := MapInput(input, g).deps;
    if r :| r in input.deps && d == MapRow(r, g) {
      var i :| 0 <= i < |input.deps| && input.deps[i] == r;
      assert ds[i] == d;
    }
    if d in ds {
      var i :| 0 <= i < |ds| && ds[i] == d;
      assert input.deps[i] in input.deps && d == MapRow(input.deps[i], g);
    }
  }

  lemma MappedCarries(a: Input, b: Input, g: Finding -> Finding)
    requires Permuted(a, b) && KeepsId(g)
    ensures forall d :: d in MapInput(a, g).deps ==> HasReordered(MapInput(b, g).deps, d)
  {
    hide Reordered, WellFormed, AllNamed, MapRow, MapInput;
    forall d | d in MapInput(a, g).deps ensures HasReordered(MapInput(b, g).deps, d) {
      MappedDeps(a, g, d);
      var r :| r in a.deps && d == MapRow(r, g);
      assert HasReordered(b.deps, r);
      var s :| s in b.deps && Reordered(r, s);
      MappedReordered(r, s, g);
      MappedDeps(b, g, MapRow(s, g));
    }
  }

  lemma MappedWellFormed(a: Input, g: Finding -> Finding)
    requires WellFormed(a)
    ensures WellFormed(MapInput(a, g))
  {
    var m := MapInput(a, g);
    forall d | d in m.deps ensures !d.isSelf { MappedDeps(a, g, d); }
  }

  lemma MappedNamed(a: Input, g: Finding -> Finding)
    requires AllNamed(a) && KeepsId(g)
    ensures AllNamed(MapInput(a, g))
  {
    forall r, f | r in RowsOf(MapInput(a, g)) && f in r.findings ensures f.id != "" {
      if r in MapInput(a, g).deps {
        MappedDeps(a, g, r);
        var d :| d in a.deps && r == MapRow(d, g);
        assert d in RowsOf(a) && Named(d);
        MappedIn(d, g, f);
      } else {
        assert a.self in RowsOf(a) && Named(a.self);
        MappedIn(a.self, g, f);
      }
    }
  }

  lemma MappedPermuted(a: Input, b: Input, g: Finding -> Finding)
    requires Permuted(a, b) && KeepsId(g)
    ensures Permuted(MapInput(a, g), MapInput(b, g))
  {
    MappedReordered(a.self, b.self, g);
    hide Reordered, HasReordered, WellFormed, AllNamed, KeepsId, MapRow;
    MappedCarries(a, b, g);
    PermutedBack(a, b);
    MappedCarries(b, a, g);
    MappedWellFormed(a, g);
    MappedWellFormed(b, g);
    MappedNamed(a, g);
    MappedNamed(b, g);
  }

  lemma SubstitutionsKeepId(sev: Severity)
    ensures KeepsId(EstimatedAs(sev)) && KeepsId(FailedAs(sev))
  {
  }

  lemma SameFlags(a: Input, b: Input)
    requires Permuted(a, b)
    ensures (HasEstimated(a) ==> HasEstimated(b)) && (HasFailed(a) ==> HasFailed(b))
  {
    hide HasReordered, WellFormed, AllNamed;
    if r :| r in RowsOf(a) && exists f :: f in r.findings && f.severity == Unrated {
      var s := PermutedRow(a, b, r);
    }
    if r :| r in RowsOf(a) && exists f :: f in r.findings && f.lookupFailed {
      var s := PermutedRow(a, b, r);
    }
  }

  /** The re-runs that Grade compares agree. */
  lemma PermutedAlternatives(a: Input, b: Input, letter: Option<Letter>)
    requires Permuted(a, b) && Clean(a) && Clean(b)
    ensures LookupMatters(a, letter) == LookupMatters(b, letter)
    ensures EstimateMatters(a, letter) == EstimateMatters(b, letter)
  {
    hide HasFailed, HasEstimated, GradeOnceOf, Clean;
    SameFlags(a, b);
    PermutedBack(a, b);
    SameFlags(b, a);
    forall sev: Severity
      ensures GradeOnceOf(WithLookupSeverity(a, sev)) == GradeOnceOf(WithLookupSeverity(b, sev))
      ensures GradeOnceOf(WithEstimatedSeverity(a, sev)) == GradeOnceOf(WithEstimatedSeverity(b, sev))
    {
      SubstitutionsKeepId(sev);
      hide Permuted, KeepsId, MapInput, FailedAs, EstimatedAs;
      PermutedRerun(a, b, FailedAs(sev), sev);
      PermutedRerun(a, b, EstimatedAs(sev), sev);
    }
    hide Permuted;
  }

  lemma PermutedRerun(a: Input, b: Input, g: Finding -> Finding, sev: Severity)
    requires Permuted(a, b) && Clean(a) && Clean(b) && (g == FailedAs(sev) || g == EstimatedAs(sev))
    ensures GradeOnceOf(MapInput(a, g)) == GradeOnceOf(MapInput(b, g))
  {
    hide Permuted, Clean, MapInput, GradeOnceOf;
    SubstitutionsKeepId(sev);
    MappedPermuted(a, b, g);
    SubstitutionsKeepClean(a, sev);
    SubstitutionsKeepClean(b, sev);
    CleanStaysMerged(MapInput(a, g));
    CleanStaysMerged(MapInput(b, g));
    PermutedGraded(MapInput(a, g), MapInput(b, g));
  }

  lemma SubstitutionsKeepClean(a: Input, sev: Severity)
    requires Clean(a)
    ensures Clean(MapInput(a, FailedAs(sev))) && Clean(MapInput(a, EstimatedAs(sev)))
  {
    MappedRel(a, FailedAs(sev), SameAdvisory);
    MappedRel(a, EstimatedAs(sev), SameAdvisory);
    SameAdvisoryKeepsClean(a, MapInput(a, FailedAs(sev)));
    SameAdvisoryKeepsClean(a, MapInput(a, EstimatedAs(sev)));
  }

  // ---- The raw lists ----

  /** The same row with its findings listed in any order. */
  ghost predicate Shuffled(r: Row,
                           s: Row) { s == r.(findings := s.findings) && multiset(r.findings) == multiset(s.findings) }

  ghost predicate HasShuffled(rows: seq<Row>, r: Row) { exists s :: s in rows && Shuffled(r, s) }

  /** The same scan, with the dependencies and each row's findings listed in any order. */
  ghost predicate Relisted(a: Input, b: Input) {
    && b == a.(self := b.self, deps := b.deps)
    && Shuffled(a.self, b.self)
    && (forall d :: d in a.deps ==> HasShuffled(b.deps, d))
    && (forall d :: d in b.deps ==> HasShuffled(a.deps, d))
    && WellFormed(a) && WellFormed(b) && AllNamed(a) && AllNamed(b)
  }

  lemma MergedHasIds(fs: seq<Finding>)
    requires forall f :: f in fs ==> f.id != ""
    ensures forall f :: f in Merged(fs) ==> f.id != ""
  {
    hide Linked, MergeMany, Class, Unlinked;
    var l := LeadersUpTo(fs, |fs|);
    forall f | f in Merged(fs) ensures f.id != "" {
      var k :| 0 <= k < |l| && Merged(fs)[k] == f;
      assert l[k] in l;
      GroupHasId(fs, l[k]);
    }
  }

  lemma GroupHasId(fs: seq<Finding>, i: int)
    requires 0 <= i < |fs| && forall f :: f in fs ==> f.id != ""
    ensures GroupValue(fs, i).id != ""
  {
    hide Linked, Unlinked;
    LinkedReflexive(fs, i);
    var g := Class(fs, i);
    assert fs[i] in g && fs[i].id in OwnIds(g);
    hide Class;
    if !Unlinked(fs, i) {
      RepresentativeIsMember(OwnIds(g));
      ClassInside(fs, i);
    }
  }

  lemma ClassInside(fs: seq<Finding>, i: int)
    requires 0 <= i < |fs|
    ensures forall f :: f in Class(fs, i) ==> f in fs
  {
    hide Linked;
  }

  lemma SameIdShares(f: Finding, g: Finding)
    requires f.id == g.id && f.id != ""
    ensures Shares(f, g)
  {
    assert f.id in Ids(f) * Ids(g);
  }

  lemma MergedOneEach(fs: seq<Finding>)
    requires forall f :: f in fs ==> f.id != ""
    ensures OneEach(Merged(fs))
  {
    MergedDisjoint(fs);
    MergedHasIds(fs);
    hide Merged, Shares;
    var m := Merged(fs);
    forall f, g | f in m && g in m && f.id == g.id ensures f == g {
      var i :| 0 <= i < |m| && m[i] == f;
      var j :| 0 <= j < |m| && m[j] == g;
      SameIdShares(f, g);
      SameIdShares(g, f);
    }
  }

  lemma NamedHasIds(fs: seq<Finding>)
    requires forall f :: f in fs ==> f.id != ""
    ensures HasIds(fs)
  {
    forall f | f in fs ensures Ids(f) != {} { assert f.id in Ids(f); }
  }

  lemma ShuffledMerged(r: Row, s: Row)
    requires Shuffled(r, s) && Named(r)
    ensures Reordered(MergedRow(r), MergedRow(s)) && Named(MergedRow(r))
  {
    hide Merged, HasIds, OneEach;
    NamedHasIds(r.findings);
    MergeOrderIndependent(r.findings, s.findings);
    MergedOneEach(r.findings);
    MergedHasIds(r.findings);
    forall f ensures f in Merged(r.findings) <==> f in Merged(s.findings) {
      assert f in multiset(Merged(r.findings)) <==> f in multiset(Merged(s.findings));
    }
  }

  lemma MergedDeps(input: Input, d: Row)
    ensures d in MergedInput(input).deps <==> exists r :: r in input.deps && d == MergedRow(r)
  {
    hide MergedRow;
    var ds := MergedInput(input).deps;
    if r :| r in input.deps && d == MergedRow(r) {
      var i :| 0 <= i < |input.deps| && input.deps[i] == r;
      assert ds[i] == d;
    }
    if d in ds {
      var i :| 0 <= i < |ds| && ds[i] == d;
      assert input.deps[i] in input.deps && d == MergedRow(input.deps[i]);
    }
  }

  lemma MergedCarries(a: Input, b: Input)
    requires Relisted(a, b)
    ensures forall d :: d in MergedInput(a).deps ==> HasReordered(MergedInput(b).deps, d)
  {
    hide Reordered, Shuffled, WellFormed, MergedRow, MergedInput, Named;
    forall d | d in MergedInput(a).deps ensures HasReordered(MergedInput(b).deps, d) {
      MergedDeps(a, d);
      var r :| r in a.deps && d == MergedRow(r);
      assert r in RowsOf(a) && HasShuffled(b.deps, r);
      var s :| s in b.deps && Shuffled(r, s);
      ShuffledMerged(r, s);
      MergedDeps(b, MergedRow(s));
    }
  }

  lemma MergedWellFormed(a: Input)
    requires WellFormed(a)
    ensures WellFormed(MergedInput(a))
  {
    hide Merged;
    var m := MergedInput(a);
    forall d | d in m.deps ensures !d.isSelf { MergedDeps(a, d); }
  }

  lemma MergedAllNamed(a: Input)
    requires AllNamed(a)
    ensures AllNamed(MergedInput(a))
  {
    hide Merged;
    forall r | r in RowsOf(MergedInput(a)) ensures Named(r) {
      if r in MergedInput(a).deps {
        MergedDeps(a, r);
        var d :| d in a.deps && r == MergedRow(d);
        assert d in RowsOf(a) && Named(d);
        MergedHasIds(d.findings);
      } else {
        assert a.self in RowsOf(a) && Named(a.self);
        MergedHasIds(a.self.findings);
      }
    }
  }

  lemma RelistedMerged(a: Input, b: Input)
    requires Relisted(a, b)
    ensures Permuted(MergedInput(a), MergedInput(b))
  {
    assert a.self in RowsOf(a) && Named(a.self);
    ShuffledMerged(a.self, b.self);
    hide Reordered, HasReordered, Shuffled, HasShuffled, WellFormed, AllNamed, MergedRow;
    MergedCarries(a, b);
    MergedCarries(b, a);
    MergedWellFormed(a);
    MergedWellFormed(b);
    MergedAllNamed(a);
    MergedAllNamed(b);
  }

  /** However the scanners list the dependencies and their advisories, the whole result is the same: rows, order, scores,
      letter, estimated flag, deciding row, whole-tree rule, what is pending and the unread archived flags. */
  lemma OrderNeverMatters(a: Input, b: Input)
    requires Relisted(a, b)
    ensures GradeOf(a) == GradeOf(b)
  {
    hide Relisted, Permuted, Clean, GradeMerged, MergedInput, GradeOnceOf, LookupMatters, EstimateMatters;
    RelistedMerged(a, b);
    MergedIsClean(a);
    MergedIsClean(b);
    var m, n := MergedInput(a), MergedInput(b);
    CleanStaysMerged(m);
    CleanStaysMerged(n);
    PermutedGraded(m, n);
    PermutedAlternatives(m, n, GradeOnceOf(m).letter);
  }
}
