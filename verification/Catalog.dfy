/** Exactly when the known-exploited catalog could change a letter that is withheld for it (pkg/grade/pending.go). */
module Catalog {
  import opened GradeTypes
  import opened Scoring
  import opened Dedupe
  import opened DedupeLaws
  import opened Tree
  import opened PendingRule
  import opened Engine
  import opened Evidence
  import opened Letters
  import opened Relations
  import opened Sandwich
  import opened CalledPass
  import opened Completions

  // ---- What a catalog can list: CVEs only ----

  predicate IdChar(c: char) {
    'A' <= c <= 'Z' || 'a' <= c <= 'z' || '0' <= c <= '9' || c == '.' || c == '_' || c == '-'
  }

  /** The CVE- prefix and validateVulnID. */
  predicate ValidCve(id: string) { "CVE-" <= id && 4 < |id| <= 100 && forall c :: c in id[4..] ==> IdChar(c) }

  /** At most 100 characters: the prefix, and behind it at least one, all of them letters, digits, dots, dashes or underscores. */
  lemma ValidCveIs(id: string)
    ensures ValidCve(id) <==>
      && 5 <= |id| <= 100 && id[..4] == "CVE-"
      && forall i :: 4 <= i < |id| ==>
           'a' <= id[i] <= 'z' || 'A' <= id[i] <= 'Z' || '0' <= id[i] <= '9' || id[i] == '.' || id[i] == '_' || id[i] == '-'
  {
    if |id| >= 4 {
      assert "CVE-" <= id <==> id[..4] == "CVE-";
      forall i | 4 <= i < |id| ensures id[i] in id[4..] { assert id[4..][i - 4] == id[i]; }
      forall c | c in id[4..] ensures exists i :: 4 <= i < |id| && id[i] == c {
        var k :| 0 <= k < |id| - 4 && id[4..][k] == c;
        assert id[k + 4] == c;
      }
    }
  }

  function FirstCve(ids: seq<string>): string {
    if ids == [] then "" else if ValidCve(ids[0]) then ids[0] else FirstCve(ids[1..])
  }

  function CveOf(f: Finding): string { if ValidCve(f.id) then f.id else FirstCve(f.aliases) }

  /** CVEAlias: the ID itself when it is a CVE, otherwise the first valid alias. */
  method CveAlias(f: Finding) returns (cve: string)
    ensures cve == CveOf(f)
  {
    hide ValidCve;
    if ValidCve(f.id) {
      return f.id;
    }
    for i := 0 to |f.aliases|
      invariant FirstCve(f.aliases) == FirstCve(f.aliases[i..])
    {
      assert f.aliases[i..][1..] == f.aliases[i + 1..];
      if ValidCve(f.aliases[i]) {
        return f.aliases[i];
      }
    }
    return "";
  }

  lemma {:induction false} FirstCveIs(ids: seq<string>)
    ensures FirstCve(ids) == "" <==> forall x :: x in ids ==> !ValidCve(x)
    ensures FirstCve(ids) != "" ==> FirstCve(ids) in ids && ValidCve(FirstCve(ids))
  {
    if ids != [] {
      assert ValidCve(ids[0]) ==> ids[0] != "";
      FirstCveIs(ids[1..]);
      hide ValidCve;
      assert ids == [ids[0]] + ids[1..];
    }
  }

  /** A finding can be looked up if and only if one of its identifiers is a valid CVE, and then under one of those. */
  lemma CveOfIs(f: Finding)
    ensures CveOf(f) == "" <==> forall x :: x in RawIds(f) ==> !ValidCve(x)
    ensures CveOf(f) != "" ==> CveOf(f) in RawIds(f) && ValidCve(CveOf(f))
  {
    FirstCveIs(f.aliases);
    assert !ValidCve("");
    hide ValidCve, FirstCve;
  }

  /** What reading the catalog makes of a finding. */
  function InCatalog(f: Finding, kev: iset<string>): Finding {
    f.(exploited := f.exploited || (CveOf(f) != "" && CveOf(f) in kev))
  }

  function ListedIn(kev: iset<string>): Finding -> Finding { (f: Finding) => InCatalog(f, kev) }

  /** The input once the catalog is read in full and kev is what it lists. */
  function Known(a: Input, kev: iset<string>): Input {
    MapInput(a, ListedIn(kev)).(checks := a.checks.(kevUnchecked := 0))
  }

  lemma KnownRead(a: Input, kev: iset<string>)
    ensures CatalogRead(a, Known(a, kev))
  {
    hide CveOf;
  }

  // ---- The letter after some findings were listed ----

  /** What a called finding's listing alone makes of its row. */
  function ListedLetter(r: Row): Letter { if r.testOnly == Yes then LetterC else LetterF }

  /** Finding j of row i, scored as called, was listed. */
  ghost predicate NewAt(m: Input, n: Input, i: int, j: int) {
    && 0 <= i < |RowsOf(m)| && i < |RowsOf(n)| && 0 <= j < |RowsOf(m)[i].findings| && j < |RowsOf(n)[i].findings|
    && !RowsOf(m)[i].findings[j].exploited && RowsOf(n)[i].findings[j].exploited
    && ScoreFinding(RowsOf(m)[i].findings[j], RowsOf(m)[i]).tier == TierCalled
  }

  ghost predicate NewReaches(m: Input, n: Input, l: Letter) {
    exists i, j :: NewAt(m, n, i, j) && AtLeast(ListedLetter(RowsOf(m)[i]), l)
  }

  /** A finding's place, and its twin before the catalog was read. */
  lemma PlaceBefore(m: Input, n: Input, s: Row, g: Finding) returns (i: int, j: int)
    requires InputRel(m, n, Exploits) && s in RowsOf(n) && g in s.findings
    ensures 0 <= i < |RowsOf(m)| && i < |RowsOf(n)| && RowsOf(n)[i] == s && RowsOf(m)[i] in RowsOf(m)
    ensures 0 <= j < |s.findings| && s.findings[j] == g && j < |RowsOf(m)[i].findings|
    ensures RowsOf(m)[i].findings[j] in RowsOf(m)[i].findings && Exploits(RowsOf(m)[i].findings[j], g)
    ensures s == RowsOf(m)[i].(findings := s.findings)
  {
    RowsRelated(m, n, Exploits);
    i :| 0 <= i < |RowsOf(n)| && RowsOf(n)[i] == s;
    j :| 0 <= j < |s.findings| && s.findings[j] == g;
    assert RowRel(RowsOf(m)[i], s, Exploits);
  }

  lemma ListingCounts(r: Row, s: Row, f: Finding, g: Finding)
    requires s == r.(findings := s.findings) && Exploits(f, g)
    ensures CountsCalled(s, g) == CountsCalled(r, f) && CountsReached(s, g) == CountsReached(r, f)
    ensures Key(s.module_, g.id) == Key(r.module_, f.id)
    ensures Alone(s, g) == if !f.exploited && g.exploited && ScoreFinding(f, r).tier == TierCalled then ListedLetter(r) else Alone(r, f)
  {
  }

  lemma ListingKeepsKeys(m: Input, n: Input)
    requires InputRel(m, n, Exploits)
    ensures CalledKeys(RowsOf(n)) <= CalledKeys(RowsOf(m)) && ReachedKeys(RowsOf(n)) <= ReachedKeys(RowsOf(m))
  {
    hide CountsCalled, CountsReached, InputRel, Exploits, RowsOf;
    forall k | k in CalledKeys(RowsOf(n)) ensures k in CalledKeys(RowsOf(m)) {
      var s, g :| s in RowsOf(n) && g in s.findings && CountsCalled(s, g) && k == Key(s.module_, g.id);
      var i, j := PlaceBefore(m, n, s, g);
      ListingCounts(RowsOf(m)[i], s, RowsOf(m)[i].findings[j], g);
    }
    forall k | k in ReachedKeys(RowsOf(n)) ensures k in ReachedKeys(RowsOf(m)) {
      var s, g :| s in RowsOf(n) && g in s.findings && CountsReached(s, g) && k == Key(s.module_, g.id);
      var i, j := PlaceBefore(m, n, s, g);
      ListingCounts(RowsOf(m)[i], s, RowsOf(m)[i].findings[j], g);
    }
  }

  lemma ListedEvidence(m: Input, n: Input, l: Letter)
    requires InputRel(m, n, Exploits) && FindingEvidence(n, l)
    ensures FindingEvidence(m, l) || NewReaches(m, n, l)
  {
    hide Alone, Exploits, InputRel, ListedLetter, ScoreFinding, RowsOf;
    var s :| s in RowsOf(n) && SomeAlone(s, l);
    var g :| g in s.findings && AtLeast(Alone(s, g), l);
    var i, j := PlaceBefore(m, n, s, g);
    var r := RowsOf(m)[i];
    ListingCounts(r, s, r.findings[j], g);
    if !NewAt(m, n, i, j) {
      ListedOnly(r.findings[j], g);
      assert SomeAlone(r, l);
    }
  }

  lemma ListedOnly(f: Finding, g: Finding)
    requires Exploits(f, g)
    ensures f.exploited ==> g.exploited
  {
  }

  lemma NewIsEvidence(m: Input, n: Input, i: int, j: int, l: Letter)
    requires InputRel(m, n, Exploits) && NewAt(m, n, i, j) && AtLeast(ListedLetter(RowsOf(m)[i]), l)
    ensures FindingEvidence(n, l)
  {
    RowsRelated(m, n, Exploits);
    var r, s := RowsOf(m)[i], RowsOf(n)[i];
    assert RowRel(r, s, Exploits);
    ListingCounts(r, s, r.findings[j], s.findings[j]);
    hide Alone, Exploits, InputRel, ListedLetter, ScoreFinding;
    assert s in RowsOf(n) && s.findings[j] in s.findings && SomeAlone(s, l);
  }

  lemma NewReachesEvidence(m: Input, n: Input, l: Letter)
    requires InputRel(m, n, Exploits) && NewReaches(m, n, l)
    ensures FindingEvidence(n, l)
  {
    var i, j :| NewAt(m, n, i, j) && AtLeast(ListedLetter(RowsOf(m)[i]), l);
    NewIsEvidence(m, n, i, j, l);
  }

  lemma UpkeepStays(m: Input, n: Input, l: Letter)
    requires InputRel(m, n, Exploits) && UpkeepEvidence(n, l)
    ensures UpkeepEvidence(m, l)
  {
    RowsRelated(m, n, Exploits);
    hide Exploits, InputRel, RowUpkeep;
    var s :| s in RowsOf(n) && AtLeast(BandOf(RowUpkeep(s)), l);
    var i :| 0 <= i < |RowsOf(n)| && RowsOf(n)[i] == s;
    assert RowRel(RowsOf(m)[i], s, Exploits) && RowsOf(m)[i] in RowsOf(m);
    SameUpkeep(RowsOf(m)[i], s);
  }

  lemma SameUpkeep(r: Row, s: Row)
    requires RowRel(r, s, Exploits)
    ensures RowUpkeep(s) == RowUpkeep(r)
  {
  }

  /** After some findings were listed the letter reaches l if and only if it did before, or some listed finding that is scored
      as called does: an F, or a C when test-only. */
  lemma ListedExact(m: Input, n: Input, l: Letter)
    requires InputRel(m, n, Exploits)
    ensures AtLeast(RawLetter(n), l) <==> AtLeast(RawLetter(m), l) || NewReaches(m, n, l)
  {
    hide RawLetter, FindingEvidence, UpkeepEvidence, CalledKeys, ReachedKeys, NewReaches, RowsOf;
    ExploitsGrows(m, n);
    ListingKeepsKeys(m, n);
    SubsetCount(CalledKeys(RowsOf(n)), CalledKeys(RowsOf(m)));
    SubsetCount(ReachedKeys(RowsOf(n)), ReachedKeys(RowsOf(m)));
    if FindingEvidence(n, l) { ListedEvidence(m, n, l); }
    if UpkeepEvidence(n, l) { UpkeepStays(m, n, l); }
    if NewReaches(m, n, l) { NewReachesEvidence(m, n, l); }
    LetterIsEvidence(m, l);
    LetterIsEvidence(n, l);
  }

  // ---- Grade after the catalog was read ----

  /** What withholds a letter withholds no worse one. */
  lemma KnownPending(m: Input, n: Input, s: int, t: int)
    requires InputRel(m, n, Exploits) && PendingOf(m, s).None? && AtLeast(BandOf(t), BandOf(s))
    ensures PendingOf(n, t).None?
  {
    forall d | d in n.deps ensures !Withholds(d, t) {
      var i :| 0 <= i < |n.deps| && n.deps[i] == d;
      assert RowRel(m.deps[i], d, Exploits) && m.deps[i] in m.deps;
      assert !Withholds(m.deps[i], s);
    }
  }

  lemma ListedOnce(m: Input, n: Input)
    requires Clean(m) && Clean(n) && InputRel(m, n, Exploits) && GradeOnceOf(m).letter.Some?
    ensures GradeOnceOf(m).letter == Some(RawLetter(m)) && GradeOnceOf(n).letter == Some(RawLetter(n))
  {
    hide RawLetter, GradeMerged, GradeOnceOf, LetterScore, PendingOf, Clean, InputRel;
    CleanStaysMerged(m);
    CleanStaysMerged(n);
    ExploitsGrows(m, n);
    VerdictOf(m);
    VerdictOf(n);
    RawLetterIs(m);
    RawLetterIs(n);
    KnownPending(m, n, LetterScore(m), LetterScore(n));
  }

  lemma RerunRelated(m: Input, n: Input, sev: Severity)
    requires InputRel(m, n, Exploits)
    ensures InputRel(WithLookupSeverity(m, sev), WithLookupSeverity(n, sev), Exploits)
  {
    RerunRowRelated(m.self, n.self, sev);
    forall i | 0 <= i < |m.deps| ensures RowRel(WithLookupSeverity(m, sev).deps[i], WithLookupSeverity(n, sev).deps[i], Exploits) {
      RerunRowRelated(m.deps[i], n.deps[i], sev);
    }
  }

  lemma RerunRowRelated(r: Row, s: Row, sev: Severity)
    requires RowRel(r, s, Exploits)
    ensures RowRel(MapRow(r, FailedAs(sev)), MapRow(s, FailedAs(sev)), Exploits)
  {
    forall j | 0 <= j < |r.findings| ensures Exploits(MapRow(r, FailedAs(sev)).findings[j], MapRow(s, FailedAs(sev)).findings[j]) {
      assert Exploits(r.findings[j], s.findings[j]);
    }
  }

  lemma RerunPlace(m: Input, sev: Severity, i: int)
    requires 0 <= i < |RowsOf(m)|
    ensures |RowsOf(WithLookupSeverity(m, sev))| == |RowsOf(m)|
    ensures RowsOf(WithLookupSeverity(m, sev))[i] == MapRow(RowsOf(m)[i], FailedAs(sev))
  {
  }

  /** A re-run changes severities only, so the same places are newly listed. */
  lemma RerunNew(m: Input, n: Input, sev: Severity, l: Letter)
    requires InputRel(m, n, Exploits)
    ensures NewReaches(WithLookupSeverity(m, sev), WithLookupSeverity(n, sev), l) <==> NewReaches(m, n, l)
  {
    var v, w := WithLookupSeverity(m, sev), WithLookupSeverity(n, sev);
    assert |RowsOf(v)| == |RowsOf(m)| && |RowsOf(w)| == |RowsOf(n)|;
    forall i, j ensures NewAt(v, w, i, j) <==> NewAt(m, n, i, j) {
      if 0 <= i < |RowsOf(m)| && i < |RowsOf(n)| {
        RerunPlace(m, sev, i);
        RerunPlace(n, sev, i);
      }
    }
    forall i | 0 <= i < |RowsOf(m)| ensures ListedLetter(RowsOf(v)[i]) == ListedLetter(RowsOf(m)[i]) { RerunPlace(m, sev, i); }
    hide NewAt, ListedLetter, WithLookupSeverity;
  }

  lemma RerunKeeps(m: Input, n: Input, sev: Severity)
    requires Clean(m) && Clean(n) && InputRel(m, n, Exploits) && GradeOnceOf(m).letter.Some?
    requires GradeOnceOf(WithLookupSeverity(m, sev)).letter == GradeOnceOf(m).letter
    ensures GradeOnceOf(WithLookupSeverity(n, sev)).letter == GradeOnceOf(n).letter
  {
    hide RawLetter, GradeOnceOf, Clean, InputRel, WithLookupSeverity, NewReaches;
    var v, w := WithLookupSeverity(m, sev), WithLookupSeverity(n, sev);
    RerunRelated(m, n, sev);
    RerunIsClean(m, sev);
    RerunIsClean(n, sev);
    ListedOnce(m, n);
    ListedOnce(v, w);
    RerunNew(m, n, sev, RawLetter(n));
    RerunNew(m, n, sev, RawLetter(w));
    ListedExact(m, n, RawLetter(n));
    ListedExact(m, n, RawLetter(w));
    ListedExact(v, w, RawLetter(n));
    ListedExact(v, w, RawLetter(w));
    SameRank(RawLetter(n), RawLetter(w));
  }

  lemma RerunIsClean(m: Input, sev: Severity)
    requires Clean(m)
    ensures Clean(WithLookupSeverity(m, sev))
  {
    MappedClean(m, FailedAs(sev));
  }

  lemma ListedKeepsLookups(m: Input, n: Input)
    requires Clean(m) && Clean(n) && InputRel(m, n, Exploits) && GradeOnceOf(m).letter.Some?
    requires !LookupMatters(m, GradeOnceOf(m).letter)
    ensures !LookupMatters(n, GradeOnceOf(n).letter)
  {
    if HasFailed(n) {
      hide GradeOnceOf, Clean, InputRel, WithLookupSeverity, HasFailed;
      FailedBefore(m, n);
      RerunKeeps(m, n, Low);
      RerunKeeps(m, n, Critical);
    }
  }

  lemma FailedBefore(m: Input, n: Input)
    requires InputRel(m, n, Exploits) && HasFailed(n)
    ensures HasFailed(m)
  {
    assert n.(checks := m.checks) == n;
    CatalogSameFlags(m, n);
  }

  // ---- Through the merge ----

  /** The input with the catalog read and nothing found in it. */
  function Unlisted(a: Input): Input { a.(checks := a.checks.(kevUnchecked := 0)) }

  lemma KnownMerged(a: Input, kev: iset<string>)
    ensures InputRel(MergedInput(Unlisted(a)), MergedInput(Known(a, kev)), Exploits)
    ensures RawLetter(MergedInput(Unlisted(a))) == RawLetter(MergedInput(a))
    ensures RowsOf(MergedInput(Unlisted(a))) == RowsOf(MergedInput(a))
  {
    var c := a.checks.(kevUnchecked := 0);
    KnownRead(a, kev);
    CatalogMerged(a, Known(a, kev));
    assert MergedInput(Unlisted(a)) == MergedInput(a).(checks := c);
    assert MergedInput(Known(a, kev)).checks == c && MergedInput(a).checks == a.checks;
    hide RawLetter, MergedInput, Known;
    ChecksDoNotScore(MergedInput(a), c);
  }

  /** Once Grade gives a letter without any listing, it gives one for every catalog: the one of the merged rows. */
  lemma KnownGrade(a: Input, kev: iset<string>)
    requires GradeOf(Unlisted(a)).letter.Some?
    ensures GradeOf(Known(a, kev)).letter == Some(RawLetter(MergedInput(Known(a, kev))))
  {
    var m, n := MergedInput(Unlisted(a)), MergedInput(Known(a, kev));
    hide *;
    KnownMerged(a, kev);
    MergedIsClean(Unlisted(a));
    MergedIsClean(Known(a, kev));
    GradeParts(Unlisted(a), GradeOf(Unlisted(a)).letter.value);
    ListedOnce(m, n);
    ListedKeepsLookups(m, n);
    GradeParts(Known(a, kev), RawLetter(n));
  }

  /** The group that raw finding i is merged into is listed exactly when one of its members is. */
  lemma GroupListed(fs: seq<Finding>, gs: seq<Finding>, i: int, kev: iset<string>)
    requires |fs| == |gs| && 0 <= i < |fs| && forall j :: 0 <= j < |fs| ==> gs[j] == InCatalog(fs[j], kev)
    ensures GroupValue(gs, i).exploited <==> GroupValue(fs, i).exploited || exists f :: f in Class(fs, i) && CveOf(f) != "" && CveOf(f) in kev
    ensures Exploits(GroupValue(fs, i), GroupValue(gs, i))
  {
    hide GroupValue, Class, CveOf, SameIds;
    forall j | 0 <= j < |fs| ensures Exploits(fs[j], gs[j]) && SameCore(fs[j], gs[j]) {}
    SameCoresSameIds(fs, gs);
    SameIdsBack(fs, gs);
    ExploitsGroup(fs, gs, i);
    GroupIsTop(fs, i);
    GroupIsTop(gs, i);
    if g :| g in Class(gs, i) && g.exploited {
      var j := MemberTwin(gs, fs, i, g);
      assert fs[j] in Class(fs, i);
    }
    if f :| f in Class(fs, i) && CveOf(f) != "" && CveOf(f) in kev {
      var j := MemberTwin(fs, gs, i, f);
      assert gs[j] in Class(gs, i);
    }
  }

  /** Raw finding i of row r carries a CVE in open, its merged finding is scored as called, and a listing of that would be
      worse than the letter without one. */
  ghost predicate MayList(a: Input, open: iset<string>, r: Row, i: int) {
    && r in RowsOf(a) && 0 <= i < |r.findings|
    && CveOf(r.findings[i]) != "" && CveOf(r.findings[i]) in open
    && ScoreFinding(GroupValue(r.findings, i), r).tier == TierCalled
    && !AtLeast(RawLetter(MergedInput(a)), ListedLetter(r))
  }

  ghost predicate CouldBeListed(a: Input, open: iset<string>) { exists r, i :: MayList(a, open, r, i) }

  lemma MergedRows(a: Input, x: int)
    requires 0 <= x < |RowsOf(a)|
    ensures |RowsOf(MergedInput(a))| == |RowsOf(a)| && RowsOf(MergedInput(a))[x] == MergedRow(RowsOf(a)[x])
  {
    hide MergedRow;
    if x > 0 { assert MergedInput(a).deps[x - 1] == MergedRow(a.deps[x - 1]); }
  }

  lemma KnownRows(a: Input, kev: iset<string>, x: int)
    requires 0 <= x < |RowsOf(a)|
    ensures |RowsOf(Known(a, kev))| == |RowsOf(a)| && RowsOf(Known(a, kev))[x] == MapRow(RowsOf(a)[x], ListedIn(kev))
  {
    hide InCatalog;
  }

  lemma FlagsScore(r: Row, s: Row, f: Finding)
    requires s == r.(findings := s.findings)
    ensures ScoreFinding(f, s).tier == ScoreFinding(f, r).tier && ListedLetter(s) == ListedLetter(r)
  {
  }

  /** A newly listed merged finding has a raw member that may be listed, or its listing is no worse than the letter. */
  lemma NewFromRaw(a: Input, kev: iset<string>, x: int, k: int)
    requires NewAt(MergedInput(Unlisted(a)), MergedInput(Known(a, kev)), x, k)
    ensures x < |RowsOf(a)|
    ensures AtLeast(RawLetter(MergedInput(a)), ListedLetter(RowsOf(a)[x])) || CouldBeListed(a, kev)
    ensures ListedLetter(RowsOf(MergedInput(Unlisted(a)))[x]) == ListedLetter(RowsOf(a)[x])
  {
    KnownMerged(a, kev);
    hide RawLetter, MergedInput, Known, GroupValue, CveOf, ListedLetter;
    MergedCount(a);
    MergedRows(a, x);
    KnownRows(a, kev, x);
    MergedCount(Known(a, kev));
    MergedRows(Known(a, kev), x);
    var r := RowsOf(a)[x];
    var fs, gs := r.findings, MapRow(r, ListedIn(kev)).findings;
    var i := MergedPlace(fs, gs, kev, k);
    GroupListed(fs, gs, i, kev);
    var f :| f in Class(fs, i) && CveOf(f) != "" && CveOf(f) in kev;
    var j := ClassPlace(fs, i, f);
    FlagsScore(r, MergedRow(r), GroupValue(fs, i));
    assert r in RowsOf(a);
    if !AtLeast(RawLetter(MergedInput(a)), ListedLetter(r)) { assert MayList(a, kev, r, j); }
  }

  lemma MergedCount(a: Input)
    ensures |RowsOf(MergedInput(a))| == |RowsOf(a)|
  {
  }

  lemma MergedPlace(fs: seq<Finding>, gs: seq<Finding>, kev: iset<string>, k: int) returns (i: int)
    requires |fs| == |gs| && forall j :: 0 <= j < |fs| ==> gs[j] == InCatalog(fs[j], kev)
    requires 0 <= k < |Merged(fs)|
    ensures |LeadersUpTo(fs, |fs|)| == |Merged(fs)| == |Merged(gs)|
    ensures i == LeadersUpTo(fs, |fs|)[k] && 0 <= i < |fs|
    ensures Merged(fs)[k] == GroupValue(fs, i) && Merged(gs)[k] == GroupValue(gs, i)
  {
    hide CveOf;
    assert SameIds(fs, gs);
    SameIdsSameLeaders(fs, gs, |fs|);
    i := LeadersUpTo(fs, |fs|)[k];
    assert i in LeadersUpTo(fs, |fs|);
  }

  lemma ClassPlace(fs: seq<Finding>, i: int, f: Finding) returns (j: int)
    requires 0 <= i < |fs| && f in Class(fs, i)
    ensures 0 <= j < |fs| && fs[j] == f && GroupValue(fs, j) == GroupValue(fs, i)
  {
    j :| 0 <= j < |fs| && Linked(fs, i, j) && fs[j] == f;
    SameGroup(fs, i, j);
  }

  lemma ExploitedAlone(m: Input, r: Row, f: Finding)
    requires r in RowsOf(m) && f in r.findings && f.exploited && ScoreFinding(f, r).tier == TierCalled
    ensures AtLeast(RawLetter(m), ListedLetter(r))
  {
    hide RawLetter;
    assert AtLeast(Alone(r, f), ListedLetter(r));
    assert SomeAlone(r, ListedLetter(r));
    hide Alone, SomeAlone, RowsOf;
    assert FindingEvidence(m, ListedLetter(r));
    LetterIsEvidence(m, ListedLetter(r));
  }

  /** Where the group of finding i stands once merged, before and after the catalog was read. */
  lemma GroupPlace(r: Row, open: iset<string>, i: int) returns (k: int)
    requires 0 <= i < |r.findings| && CveOf(r.findings[i]) != "" && CveOf(r.findings[i]) in open
    ensures var fs, gs := Merged(r.findings), Merged(MapRow(r, ListedIn(open)).findings);
      0 <= k < |fs| && k < |gs| && fs[k] == GroupValue(r.findings, i) && gs[k].exploited
  {
    hide GroupValue, CveOf, Class, Merged;
    var fs, gs := r.findings, MapRow(r, ListedIn(open)).findings;
    k := OutputFor(fs, i);
    SameGroup(fs, LeadersUpTo(fs, |fs|)[k], i);
    var p := MergedPlace(fs, gs, open, k);
    GroupListed(fs, gs, p, open);
    assert fs[i] in Class(fs, p);
  }

  lemma RawPlace(a: Input, open: iset<string>, r: Row, i: int) returns (x: int, k: int)
    requires MayList(a, open, r, i)
    ensures var m, n := MergedInput(Unlisted(a)), MergedInput(Known(a, open));
      && 0 <= x < |RowsOf(m)| && x < |RowsOf(n)| && RowsOf(m)[x] == r.(findings := RowsOf(m)[x].findings)
      && 0 <= k < |RowsOf(m)[x].findings| && k < |RowsOf(n)[x].findings|
      && RowsOf(m)[x].findings[k] == GroupValue(r.findings, i) && RowsOf(n)[x].findings[k].exploited
  {
    x :| 0 <= x < |RowsOf(a)| && RowsOf(a)[x] == r;
    KnownMerged(a, open);
    hide RawLetter, MergedInput, Known, GroupValue, CveOf, Merged, ScoreFinding, ListedLetter, RowsOf;
    MergedCount(a);
    MergedRows(a, x);
    KnownRows(a, open, x);
    MergedCount(Known(a, open));
    MergedRows(Known(a, open), x);
    k := GroupPlace(r, open, i);
  }

  /** The catalog that lists everything in open makes the letter at least as bad as each finding that may be listed. */
  lemma ListedIsReached(a: Input, open: iset<string>, r: Row, i: int)
    requires MayList(a, open, r, i)
    ensures AtLeast(RawLetter(MergedInput(Known(a, open))), ListedLetter(r))
  {
    var m, n := MergedInput(Unlisted(a)), MergedInput(Known(a, open));
    KnownMerged(a, open);
    hide RawLetter, MergedInput, Known, GroupValue, CveOf;
    var x, k := RawPlace(a, open, r, i);
    FlagsScore(r, RowsOf(m)[x], GroupValue(r.findings, i));
    hide ScoreFinding, ListedLetter;
    if GroupValue(r.findings, i).exploited {
      assert RowsOf(m)[x] in RowsOf(m) && GroupValue(r.findings, i) in RowsOf(m)[x].findings;
      ExploitedAlone(m, RowsOf(m)[x], GroupValue(r.findings, i));
      ExploitsGrows(m, n);
    } else {
      assert NewAt(m, n, x, k);
      ListedExact(m, n, ListedLetter(r));
    }
  }

  // ---- known_exploited, exactly ----

  lemma LetterMoves(a: Input, open: iset<string>, kev: iset<string>)
    requires kev <= open && RawLetter(MergedInput(Known(a, kev))) != RawLetter(MergedInput(a))
    ensures CouldBeListed(a, open)
  {
    var m, n, u := MergedInput(Unlisted(a)), MergedInput(Known(a, kev)), RawLetter(MergedInput(Known(a, kev)));
    KnownMerged(a, kev);
    hide RawLetter, MergedInput, Known, ListedLetter, CouldBeListed;
    ExploitsGrows(m, n);
    ListedExact(m, n, u);
    SameRankUnless(u, RawLetter(m));
    var x, k :| NewAt(m, n, x, k) && AtLeast(ListedLetter(RowsOf(m)[x]), u);
    NewFromRaw(a, kev, x, k);
    CouldGrows(a, kev, open);
  }

  lemma CouldGrows(a: Input, less: iset<string>, more: iset<string>)
    requires less <= more && CouldBeListed(a, less)
    ensures CouldBeListed(a, more)
  {
    hide ScoreFinding, RawLetter, MergedInput, GroupValue, ListedLetter, CveOf;
    var r, i :| MayList(a, less, r, i);
    assert MayList(a, more, r, i);
  }

  lemma SameRankUnless(a: Letter, b: Letter)
    requires a != b && AtLeast(a, b)
    ensures !AtLeast(b, a)
  {
  }

  lemma KnownNothing(a: Input)
    ensures RawLetter(MergedInput(Known(a, iset{}))) == RawLetter(MergedInput(a))
  {
    if RawLetter(MergedInput(Known(a, iset{}))) != RawLetter(MergedInput(a)) {
      hide RawLetter, MergedInput, Known;
      LetterMoves(a, iset{}, iset{});
      assert false;
    }
  }

  /** When nothing but the catalog withholds Grade's letter and open holds the CVEs that nobody has looked up, two catalogs
      lead to two different letters if and only if some finding carries a CVE in open, is scored as called once merged, and
      its listing would be worse than the letter without one. */
  lemma CatalogPendingExact(a: Input, open: iset<string>)
    requires GradeOf(a).pending == Some(KnownExploited) && GradeOf(Unlisted(a)).letter.Some?
    ensures (exists k, l :: k <= open && l <= open && GradeOf(Known(a, k)).letter != GradeOf(Known(a, l)).letter)
      <==> CouldBeListed(a, open)
  {
    hide GradeOf, RawLetter, MergedInput, Known, ListedLetter, CouldBeListed;
    KnownNothing(a);
    if CouldBeListed(a, open) {
      WorstCatalogMoves(a, open);
      KnownGrade(a, open);
      KnownGrade(a, iset{});
      assert open <= open && iset{} <= open;
    }
    if k, l :| k <= open && l <= open && GradeOf(Known(a, k)).letter != GradeOf(Known(a, l)).letter {
      KnownGrade(a, k);
      KnownGrade(a, l);
      if RawLetter(MergedInput(Known(a, k))) != RawLetter(MergedInput(a)) { LetterMoves(a, open, k); } else { LetterMoves(a, open, l); }
    }
  }

  lemma WorstCatalogMoves(a: Input, open: iset<string>)
    requires CouldBeListed(a, open)
    ensures RawLetter(MergedInput(Known(a, open))) != RawLetter(MergedInput(a))
  {
    var r, i :| MayList(a, open, r, i);
    ListedIsReached(a, open, r, i);
    hide RawLetter, MergedInput, Known, GroupValue, ListedLetter;
  }

  // ---- What the runner counts as unchecked ----

  /** kevUnchecked counts called and undetermined findings outside confirmed test-only rows with a CVE- prefix somewhere. */
  predicate IsCounted(r: Row, f: Finding) {
    && r.testOnly != Yes && (f.reach == Called || f.reach == Undetermined)
    && (("CVE-" <= f.id) || exists x :: x in f.aliases && "CVE-" <= x)
  }

  /** What the catalog can list of those is counted, whatever else is. */
  lemma ListableIsCounted(r: Row, f: Finding)
    requires r.testOnly != Yes && (f.reach == Called || f.reach == Undetermined) && CveOf(f) != ""
    ensures IsCounted(r, f)
  {
    CveOfIs(f);
    hide CveOf;
  }

  lemma WithheldIsNotF(a: Input)
    requires GradeOf(a).pending == Some(KnownExploited)
    ensures RawLetter(MergedInput(a)) != LetterF
  {
    var m := MergedInput(a);
    hide LetterScore, MergedInput;
    FirstRun(a);
    LetterUnlessPending(m);
    VerdictOf(m);
    RawLetterIs(m);
    NotF(LetterScore(m));
    hide EstimateMatters, LookupMatters, RowOrder, RaisingRule, DecidingOf, UnreadNames;
  }

  /** One counted finding with an open CVE, in a row that may be built, makes the wait for the catalog worth its while: two
      catalogs, two letters. */
  lemma CountedIsTight(a: Input, open: iset<string>, r: Row, i: int)
    requires GradeOf(a).pending == Some(KnownExploited) && GradeOf(Unlisted(a)).letter.Some?
    requires r in RowsOf(a) && (r.isSelf || r.inBuild != No) && 0 <= i < |r.findings| && IsCounted(r, r.findings[i])
    requires CveOf(r.findings[i]) != "" && CveOf(r.findings[i]) in open
    ensures exists k, l :: k <= open && l <= open && GradeOf(Known(a, k)).letter != GradeOf(Known(a, l)).letter
  {
    hide GradeOf, MergedInput, RawLetter, GroupValue, CveOf, Class, Known;
    WithheldIsNotF(a);
    MemberIsCalled(r.findings, i);
    assert MayList(a, open, r, i);
    hide MayList;
    CatalogPendingExact(a, open);
  }

  lemma MemberIsCalled(fs: seq<Finding>, i: int)
    requires 0 <= i < |fs| && (fs[i].reach == Called || fs[i].reach == Undetermined)
    ensures GroupValue(fs, i).reach == Called || GroupValue(fs, i).reach == Undetermined
  {
    GroupIsTop(fs, i);
    LinkedReflexive(fs, i);
    assert fs[i] in Class(fs, i);
    hide GroupValue, Class;
  }
  // ---- A letter withheld in vain ----

  const UNBUILT := Finding("GO-1", ["CVE-2024-1"], High, Undetermined, false, false)
  const MALFORMED := Finding("GO-2", ["CVE-2024 2"], Medium, Called, false, false)

  const UNBUILT_ROW := Row("m", false, true, Unknown, No, [UNBUILT], NO_UPKEEP)
  const BUILT_ROW := Row("n", false, true, Unknown, Unknown, [MALFORMED], NO_UPKEEP)

  /** Two advisories that the runner counts: one in a module that is not compiled in, one whose CVE is no valid identifier. */
  const UNCHECKED := ScanInput([UNBUILT_ROW, BUILT_ROW]).(checks := Checks(false, false, false, false, false, 2, false))

  lemma {:induction false} UncheckedCves()
    ensures CveOf(MALFORMED) == "" && IsCounted(BUILT_ROW, MALFORMED) && IsCounted(UNBUILT_ROW, UNBUILT)
  {
    assert !ValidCve("CVE-2024 2") by { assert ' ' == "CVE-2024 2"[4..][4] && ' ' in "CVE-2024 2"[4..]; }
    assert !ValidCve("GO-2") by { assert "GO-2"[0] != "CVE-"[0]; }
    CveOfIs(MALFORMED);
    assert RawIds(MALFORMED) == {"GO-2", "CVE-2024 2"};
    assert "CVE-2024 2" in MALFORMED.aliases && "CVE-2024-1" in UNBUILT.aliases;
    assert "CVE-" <= "CVE-2024 2" && "CVE-" <= "CVE-2024-1";
  }

  lemma UncheckedFacts()
    ensures Clean(UNCHECKED) && Clean(Unlisted(UNCHECKED)) && RowsOf(UNCHECKED) == RowsOf(Unlisted(UNCHECKED))
    ensures !SomeCritical(UNCHECKED) && !SomeExploited(UNCHECKED) && CalledKeys(RowsOf(UNCHECKED)) == {}
    ensures !HasFailed(UNCHECKED) && !HasFailed(Unlisted(UNCHECKED))
    ensures forall r :: r in RowsOf(UNCHECKED) && r.findings != [] ==> r == UNBUILT_ROW || r == BUILT_ROW
  {
    var u := UNCHECKED;
    assert RowsOf(u) == [u.self, UNBUILT_ROW, BUILT_ROW];
    assert RowsOf(Unlisted(u)) == RowsOf(u);
    forall r, f | r in RowsOf(u) && f in r.findings
      ensures (r == UNBUILT_ROW && f == UNBUILT) || (r == BUILT_ROW && f == MALFORMED) {}
  }

  lemma UncheckedPending(s: int)
    requires BandOf(s) != LetterF
    ensures PendingOf(UNCHECKED, s) == Some(KnownExploited) && PendingOf(Unlisted(UNCHECKED), s).None?
  {
    assert UNCHECKED.deps == [UNBUILT_ROW, BUILT_ROW];
  }

  lemma UncheckedGrade()
    ensures GradeOf(UNCHECKED).pending == Some(KnownExploited) && GradeOf(Unlisted(UNCHECKED)).letter.Some?
  {
    var a, u := UNCHECKED, Unlisted(UNCHECKED);
    UncheckedFacts();
    ExactlyF(a);
    hide LetterScore, GradeMerged, PendingOf, RawLetter, MergedInput, GradeOnceOf, HasFailed, EstimateMatters;
    CleanStaysMerged(a);
    CleanStaysMerged(u);
    ChecksDoNotScore(a, u.checks);
    RawLetterIs(a);
    RawLetterIs(u);
    VerdictOf(a);
    VerdictOf(u);
    UncheckedPending(LetterScore(a));
    UncheckedPending(LetterScore(u));
  }

  /** Its letter is withheld for the catalog, and every catalog gives it the same letter. */
  lemma WithheldInVain()
    ensures GradeOf(UNCHECKED).pending == Some(KnownExploited)
    ensures UNBUILT_ROW in RowsOf(UNCHECKED) && IsCounted(UNBUILT_ROW, UNBUILT) && CveOf(UNBUILT) != ""
    ensures BUILT_ROW in RowsOf(UNCHECKED) && IsCounted(BUILT_ROW, MALFORMED)
    ensures forall k: iset<string>, l: iset<string> :: GradeOf(Known(UNCHECKED, k)).letter == GradeOf(Known(UNCHECKED, l)).letter
  {
    UncheckedGrade();
    UncheckedCves();
    UnbuiltCve();
    assert UNBUILT_ROW == RowsOf(UNCHECKED)[1] && BUILT_ROW == RowsOf(UNCHECKED)[2];
    hide GradeOf, Known, CouldBeListed, IsCounted, CveOf;
    forall k: iset<string>, l: iset<string> ensures GradeOf(Known(UNCHECKED, k)).letter == GradeOf(Known(UNCHECKED, l)).letter {
      NothingListable(k + l);
      CatalogPendingExact(UNCHECKED, k + l);
      assert k <= k + l && l <= k + l;
    }
  }

  lemma {:induction false} UnbuiltCve()
    ensures CveOf(UNBUILT) != ""
  {
    assert ValidCve("CVE-2024-1");
    CveOfIs(UNBUILT);
  }

  lemma NothingListable(open: iset<string>)
    ensures !CouldBeListed(UNCHECKED, open)
  {
    UncheckedFacts();
    UncheckedCves();
    forall r, i ensures !MayList(UNCHECKED, open, r, i) {
      hide RawLetter, MergedInput, GroupValue, CveOf, RowsOf;
    }
  }
}
