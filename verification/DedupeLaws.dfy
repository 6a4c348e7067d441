/** What merging promises: nothing is lost, nothing is counted twice, and merging again changes nothing. */
module DedupeLaws {
  import opened GradeTypes
  import opened Ordering
  import opened Scoring
  import opened Dedupe

  /** No two findings of the list share an identifier. */
  ghost predicate Disjoint(fs: seq<Finding>) {
    forall i, j :: 0 <= i < j < |fs| ==> !Shares(fs[i], fs[j])
  }

  ghost function IdsOf(g: set<Finding>): set<string> { AllIds(g) - {""} }

  ghost function AllOf(fs: seq<Finding>): set<Finding> { set f | f in fs }

  lemma SharesSymmetric(a: Finding, b: Finding)
    ensures Shares(a, b) <==> Shares(b, a)
  {
    assert Ids(a) * Ids(b) == Ids(b) * Ids(a);
  }

  // ---- Merging a list without shared identifiers ----

  lemma {:induction false} DisjointPathStays(fs: seq<Finding>, p: seq<int>)
    requires Disjoint(fs) && Path(fs, p)
    ensures p[0] == p[|p| - 1]
  {
    if |p| > 1 {
      assert Shares(fs[p[0]], fs[p[1]]);
      SharesSymmetric(fs[p[0]], fs[p[1]]);
      DisjointPathStays(fs, p[1..]);
    }
  }

  lemma {:induction false} AllLead(fs: seq<Finding>, n: nat)
    requires n <= |fs| && forall i, j :: 0 <= i < |fs| && Linked(fs, i, j) ==> i == j
    ensures LeadersUpTo(fs, n) == seq(n, i => i)
  {
    hide Linked;
    if n > 0 {
      AllLead(fs, n - 1);
      assert Leader(fs, n - 1);
      assert seq(n, i => i) == seq(n - 1, i => i) + [n - 1];
    }
  }

  lemma DisjointUnchanged(fs: seq<Finding>)
    requires Disjoint(fs)
    ensures Merged(fs) == fs
  {
    forall i, j | 0 <= i < |fs| && Linked(fs, i, j) ensures i == j {
      var p :| Path(fs, p) && p[0] == i && p[|p| - 1] == j;
      DisjointPathStays(fs, p);
    }
    AllLead(fs, |fs|);
    forall k | 0 <= k < |fs| ensures Merged(fs)[k] == fs[k] {
      assert Unlinked(fs, k);
    }
  }

  // ---- Identifiers ----

  lemma RepresentativeIsMember(ids: set<string>)
    requires ids != {}
    ensures RepresentativeId(ids) in ids
  {
    var go := set id | id in ids && IsGo(id);
    if go != {} { assert Least(go) in go; }
  }

  lemma MergeManyIds(g: set<Finding>)
    requires g != {}
    ensures RawIds(MergeMany(g)) == AllIds(g)
    ensures MergeMany(g).id in OwnIds(g)
  {
    var any :| any in g;
    assert any.id in OwnIds(g);
    RepresentativeIsMember(OwnIds(g));
    var rep := MergeMany(g).id;
    var f :| f in g && f.id == rep;
    assert rep in RawIds(f);
    assert rep in AllIds(g);
    forall x ensures x in RawIds(MergeMany(g)) <==> x in AllIds(g) {
      assert x in MergeMany(g).aliases <==> x in AllIds(g) - {rep};
    }
  }

  lemma GroupIds(fs: seq<Finding>, i: int)
    requires 0 <= i < |fs|
    ensures Ids(GroupValue(fs, i)) == IdsOf(Class(fs, i))
  {
    LinkedReflexive(fs, i);
    assert fs[i] in Class(fs, i);
    if Unlinked(fs, i) {
      assert Class(fs, i) == {fs[i]};
      assert AllIds({fs[i]}) == RawIds(fs[i]) by {
        forall x ensures x in AllIds({fs[i]}) <==> x in RawIds(fs[i]) { assert fs[i] in {fs[i]}; }
      }
    } else {
      MergeManyIds(Class(fs, i));
    }
  }

  /** The leader of a finding's component. */
  lemma {:induction false} FirstLinked(fs: seq<Finding>, j: int) returns (i: int)
    requires 0 <= j < |fs|
    ensures 0 <= i <= j && Leader(fs, i) && Linked(fs, i, j)
    decreases j
  {
    if Leader(fs, j) {
      LinkedReflexive(fs, j);
      return j;
    }
    var k :| 0 <= k < j && Linked(fs, k, j);
    i := FirstLinked(fs, k);
    LinkedTransitive(fs, i, k, j);
  }

  /** The output that stands for finding j. */
  lemma OutputFor(fs: seq<Finding>, j: int) returns (k: int)
    requires 0 <= j < |fs|
    ensures 0 <= k < |Merged(fs)| && k < |LeadersUpTo(fs, |fs|)|
    ensures var i := LeadersUpTo(fs, |fs|)[k];
      0 <= i < |fs| && Linked(fs, i, j) && fs[j] in Class(fs, i) && Merged(fs)[k] == GroupValue(fs, i)
  {
    var i := FirstLinked(fs, j);
    assert i in LeadersUpTo(fs, |fs|);
    k :| 0 <= k < |LeadersUpTo(fs, |fs|)| && LeadersUpTo(fs, |fs|)[k] == i;
  }

  /** One vulnerability, one finding: no two merged findings share an identifier. */
  lemma MergedDisjoint(fs: seq<Finding>)
    ensures Disjoint(Merged(fs))
  {
    var l := LeadersUpTo(fs, |fs|);
    var out := Merged(fs);
    forall a, b | 0 <= a < b < |out| ensures !Shares(out[a], out[b]) {
      assert l[a] in l && l[b] in l;
      GroupIds(fs, l[a]);
      GroupIds(fs, l[b]);
      if Shares(out[a], out[b]) {
        var x :| x in Ids(out[a]) * Ids(out[b]);
        assert x in IdsOf(Class(fs, l[a])) && x in IdsOf(Class(fs, l[b]));
        var i := CarrierOf(fs, l[a], x);
        var j := CarrierOf(fs, l[b], x);
        assert x in Ids(fs[i]) * Ids(fs[j]);
        LinkedStep(fs, i, j);
        LinkedSymmetric(fs, l[b], j);
        LinkedTransitive(fs, l[a], i, j);
        LinkedTransitive(fs, l[a], j, l[b]);
      }
    }
  }

  lemma CarrierOf(fs: seq<Finding>, i: int, x: string) returns (j: int)
    requires x in IdsOf(Class(fs, i))
    ensures 0 <= j < |fs| && Linked(fs, i, j) && x in Ids(fs[j])
  {
    var f :| f in Class(fs, i) && x in RawIds(f);
    j :| 0 <= j < |fs| && Linked(fs, i, j) && fs[j] == f;
  }

  /** Merging what is already merged changes nothing: Grade merges, and gradeOnce merges again. */
  lemma MergeIdempotent(fs: seq<Finding>)
    ensures Merged(Merged(fs)) == Merged(fs)
  {
    MergedDisjoint(fs);
    DisjointUnchanged(Merged(fs));
  }

  /** No identifier is lost and none is invented. */
  lemma IdentifiersConserved(fs: seq<Finding>)
    ensures IdsOf(AllOf(Merged(fs))) == IdsOf(AllOf(fs))
  {
    var out := Merged(fs);
    forall x | x in IdsOf(AllOf(fs)) ensures x in IdsOf(AllOf(out)) {
      var f :| f in AllOf(fs) && x in RawIds(f);
      var j :| 0 <= j < |fs| && fs[j] == f;
      var k := OutputFor(fs, j);
      GroupIds(fs, LeadersUpTo(fs, |fs|)[k]);
      assert x in AllIds(Class(fs, LeadersUpTo(fs, |fs|)[k]));
      assert x in Ids(out[k]);
      assert out[k] in AllOf(out);
    }
    forall x | x in IdsOf(AllOf(out)) ensures x in IdsOf(AllOf(fs)) {
      var f :| f in AllOf(out) && x in RawIds(f);
      var k :| 0 <= k < |out| && out[k] == f;
      var l := LeadersUpTo(fs, |fs|);
      assert l[k] in l;
      GroupIds(fs, l[k]);
      assert x in Ids(f);
      var j := CarrierOf(fs, l[k], x);
      assert fs[j] in AllOf(fs);
    }
  }

  // ---- Coverage ----

  /** out stands for f: it has all its identifiers and is at least as severe, as reachable and as exploited. */
  ghost predicate Covers(out: Finding, f: Finding) {
    && Ids(f) <= Ids(out)
    && SeverityRank(out.severity) >= SeverityRank(f.severity)
    && ReachRank(out.reach) >= ReachRank(f.reach)
    && (f.exploited ==> out.exploited)
  }

  lemma EveryFindingCovered(fs: seq<Finding>, j: int) returns (k: int)
    requires 0 <= j < |fs|
    ensures 0 <= k < |Merged(fs)| && Covers(Merged(fs)[k], fs[j]) && Merged(fs)[k] == GroupValue(fs, j)
  {
    k := OutputFor(fs, j);
    SameGroup(fs, LeadersUpTo(fs, |fs|)[k], j);
    var i := LeadersUpTo(fs, |fs|)[k];
    var g := Class(fs, i);
    assert g != {};
    GroupIds(fs, i);
    forall x | x in Ids(fs[j]) ensures x in IdsOf(g) {}
    if Unlinked(fs, i) {
      assert j == i;
    } else {
      TopIsHeld(g);
    }
  }

  /** A covering finding scores at least as high, except in one case: an unpublished severity (scored as medium) that an
      alias publishes as LOW. The condition is exact. */
  lemma CoverScore(out: Finding, f: Finding, r: Row)
    requires Covers(out, f)
    ensures ScoreFinding(out, r).score >= ScoreFinding(f, r).score
       <==> !(f.severity == Unrated && out.severity == Low && ScoreFinding(f, r).tier != TierGraphOnly)
  {
    match f.severity
    case Critical => case High => case Medium => case Low => case Unrated =>
  }

  /** Some member publishes LOW and none publishes more. */
  ghost predicate AtMostLow(g: set<Finding>) {
    HasSeverity(g, Low) && !HasSeverity(g, Medium) && !HasSeverity(g, High) && !HasSeverity(g, Critical)
  }

  lemma TopIsLow(g: set<Finding>)
    ensures TopSeverity(g) == Low <==> AtMostLow(g)
  {
    hide HasSeverity;
  }

  /** A group of one too has its component's severity, reachability and flag. */
  lemma GroupIsTop(fs: seq<Finding>, j: int)
    requires 0 <= j < |fs|
    ensures GroupValue(fs, j).severity == TopSeverity(Class(fs, j))
    ensures GroupValue(fs, j).reach == TopReach(Class(fs, j)) && GroupValue(fs, j).exploited == HasExploited(Class(fs, j))
  {
    LinkedReflexive(fs, j);
    assert fs[j] in Class(fs, j);
    if Unlinked(fs, j) { assert Class(fs, j) == {fs[j]}; }
  }

  /** The ID that stands for finding j's component is one of its members' own: the smallest that starts with GO- when one does,
      otherwise the smallest. The rest of the identifiers are its aliases. */
  lemma MergedIdIs(fs: seq<Finding>, j: int)
    requires 0 <= j < |fs|
    ensures var out, own := GroupValue(fs, j), OwnIds(Class(fs, j));
      && out.id in own
      && (if exists x :: x in own && "GO-" <= x then "GO-" <= out.id && forall x :: x in own && "GO-" <= x ==> !Less(x, out.id)
          else forall x :: x in own ==> !Less(x, out.id))
      && (!Unlinked(fs, j) ==> Ascending(out.aliases) && forall x :: x in out.aliases <==> x in AllIds(Class(fs, j)) && x != out.id)
  {
    LinkedReflexive(fs, j);
    assert fs[j] in Class(fs, j);
    if Unlinked(fs, j) {
      assert Class(fs, j) == {fs[j]};
      LessIrreflexive(fs[j].id);
    } else {
      assert fs[j].id in OwnIds(Class(fs, j));
      RepresentativeIs(OwnIds(Class(fs, j)));
    }
  }

  lemma RepresentativeIs(own: set<string>)
    requires own != {}
    ensures var id := RepresentativeId(own);
      && id in own
      && (if exists x :: x in own && "GO-" <= x then "GO-" <= id && forall x :: x in own && "GO-" <= x ==> !Less(x, id)
          else forall x :: x in own ==> !Less(x, id))
  {
    var go := set x | x in own && "GO-" <= x;
    assert go == set x | x in own && IsGo(x);
    var id := RepresentativeId(own);
    forall x | x in own && Less(id, x) ensures !Less(x, id) { LessAsymmetric(id, x); }
    LessIrreflexive(id);
    hide Less;
    assert forall x :: x in own && "GO-" <= x ==> x in go;
    assert id == if go != {} then Least(go) else Least(own);
    assert go != {} ==> id in go;
  }

  /** Said of the component: finding j counts for less once merged if and only if nobody published its severity, it is
      reached, and the highest severity published for one of its aliases is LOW. */
  lemma MergeLowersExactly(fs: seq<Finding>, j: int, r: Row) returns (k: int)
    requires 0 <= j < |fs|
    ensures 0 <= k < |Merged(fs)| && Covers(Merged(fs)[k], fs[j])
    ensures ScoreFinding(Merged(fs)[k], r).score < ScoreFinding(fs[j], r).score
       <==> fs[j].severity == Unrated && ScoreFinding(fs[j], r).tier != TierGraphOnly && AtMostLow(Class(fs, j))
  {
    hide ScoreFinding, AtMostLow, Covers;
    k := EveryFindingCovered(fs, j);
    CoverScore(Merged(fs)[k], fs[j], r);
    GroupIsTop(fs, j);
    TopIsLow(Class(fs, j));
    hide GroupValue, TopSeverity;
  }

  const UNPUBLISHED := Finding("GO-1", ["CVE-1"], Unrated, Called, false, false)
  const PUBLISHED_LOW := Finding("GHSA-1", ["CVE-1"], Low, Called, false, false)

  lemma PublishedPair()
    ensures var m := MergeMany({UNPUBLISHED, PUBLISHED_LOW}); m.severity == Low && m.reach == Called
  {
    var g := {UNPUBLISHED, PUBLISHED_LOW};
    assert UNPUBLISHED in g && PUBLISHED_LOW in g;
    assert HasSeverity(g, Low) && HasReach(g, Called);
    hide OwnIds, AllIds, RepresentativeId;
  }

  /** One such list: alone the first finding scores 45 on any row that is built, merged with its alias 15. */
  lemma MergingLowers(r: Row)
    requires r.isSelf || r.inBuild != No
    ensures |Merged([UNPUBLISHED, PUBLISHED_LOW])| == 1
    ensures ScoreFinding(UNPUBLISHED, r).score == 45 && ScoreFinding(Merged([UNPUBLISHED, PUBLISHED_LOW])[0], r).score == 15
  {
    hide MergeMany, Merged;
    assert "CVE-1" in UNPUBLISHED.aliases && "CVE-1" in PUBLISHED_LOW.aliases;
    assert "CVE-1" in Ids(UNPUBLISHED) * Ids(PUBLISHED_LOW);
    MergedPair(UNPUBLISHED, PUBLISHED_LOW);
    PublishedPair();
  }

  /** Two findings that share an identifier become one. */
  lemma MergedPair(f: Finding, g: Finding)
    requires Shares(f, g)
    ensures Merged([f, g]) == [MergeMany({f, g})]
  {
    var fs := [f, g];
    LinkedReflexive(fs, 0);
    LinkedReflexive(fs, 1);
    LinkedStep(fs, 0, 1);
    assert Leader(fs, 0) && !Leader(fs, 1);
    assert LeadersUpTo(fs, 1) == [0];
    assert LeadersUpTo(fs, 2) == [0];
    assert !Unlinked(fs, 0);
    assert Class(fs, 0) == {f, g} by { assert fs[0] == f && fs[1] == g; }
  }

  /** So merging never lowers what a finding with a published severity contributes. */
  lemma PublishedNeverLowered(fs: seq<Finding>, j: int, r: Row) returns (k: int)
    requires 0 <= j < |fs| && fs[j].severity != Unrated
    ensures 0 <= k < |Merged(fs)| && Ids(fs[j]) <= Ids(Merged(fs)[k])
    ensures ScoreFinding(Merged(fs)[k], r).score >= ScoreFinding(fs[j], r).score
    ensures fs[j].exploited ==> Merged(fs)[k].exploited
  {
    k := EveryFindingCovered(fs, j);
    CoverScore(Merged(fs)[k], fs[j], r);
  }

  /** A failed lookup survives a merge only while no alias published a severity. */
  lemma LookupFailureOnlyUnrated(fs: seq<Finding>, k: int)
    requires forall i :: 0 <= i < |fs| ==> (fs[i].lookupFailed ==> fs[i].severity == Unrated)
    requires 0 <= k < |Merged(fs)|
    ensures Merged(fs)[k].lookupFailed ==> Merged(fs)[k].severity == Unrated
  {
    var l := LeadersUpTo(fs, |fs|);
    assert l[k] in l;
  }

  // ---- What merging reads: the identifiers decide the groups ----

  ghost predicate SameIds(fs: seq<Finding>, gs: seq<Finding>) {
    |fs| == |gs| && forall i :: 0 <= i < |fs| ==> fs[i].id == gs[i].id && fs[i].aliases == gs[i].aliases
  }

  lemma SameIdsSameLinks(fs: seq<Finding>, gs: seq<Finding>, i: int, j: int)
    requires SameIds(fs, gs) && Linked(fs, i, j)
    ensures Linked(gs, i, j)
  {
    var p :| Path(fs, p) && p[0] == i && p[|p| - 1] == j;
    forall k | 0 <= k < |p| - 1 ensures Shares(gs[p[k]], gs[p[k + 1]]) { assert Shares(fs[p[k]], fs[p[k + 1]]); }
    assert Path(gs, p);
  }

  lemma {:induction false} SameIdsSameLeaders(fs: seq<Finding>, gs: seq<Finding>, n: nat)
    requires SameIds(fs, gs) && n <= |fs|
    ensures LeadersUpTo(fs, n) == LeadersUpTo(gs, n)
  {
    if n > 0 {
      SameIdsSameLeaders(fs, gs, n - 1);
      var i := n - 1;
      if !Leader(fs, i) {
        var j :| 0 <= j < i && Linked(fs, j, i);
        SameIdsSameLinks(fs, gs, j, i);
      }
      if !Leader(gs, i) {
        var j :| 0 <= j < i && Linked(gs, j, i);
        SameIdsSameLinks(gs, fs, j, i);
      }
    }
  }

  lemma SameIdsUnlinked(fs: seq<Finding>, gs: seq<Finding>, i: int)
    requires SameIds(fs, gs)
    ensures Unlinked(fs, i) <==> Unlinked(gs, i)
  {
    forall j | 0 <= j < |fs| ensures Linked(fs, i, j) <==> Linked(gs, i, j) {
      if Linked(fs, i, j) { SameIdsSameLinks(fs, gs, i, j); }
      if Linked(gs, i, j) { SameIdsSameLinks(gs, fs, i, j); }
    }
  }

  // ---- Groups whose members differ in reachability and catalog flags only ----

  /** What decides a merged finding's identifiers and severity. */
  function Core(f: Finding): Finding { f.(exploited := false, reach := Required) }

  predicate SameCore(f: Finding, g: Finding) { Core(f) == Core(g) }

  function Cores(g: set<Finding>): (u: set<Finding>)
    ensures forall f :: f in g ==> Core(f) in u
  {
    set f | f in g :: Core(f)
  }

  lemma CoreIds(g: set<Finding>)
    ensures OwnIds(Cores(g)) == OwnIds(g) && AllIds(Cores(g)) == AllIds(g)
  {
    forall x | x in OwnIds(g) ensures x in OwnIds(Cores(g)) {
      var f :| f in g && f.id == x;
      assert Core(f) in Cores(g) && Core(f).id == x;
    }
    forall x | x in AllIds(g) ensures x in AllIds(Cores(g)) {
      var f :| f in g && x in RawIds(f);
      assert Core(f) in Cores(g) && x in RawIds(Core(f));
    }
    forall x | x in AllIds(Cores(g)) ensures x in AllIds(g) {
      var e :| e in Cores(g) && x in RawIds(e);
      var f :| f in g && Core(f) == e;
      assert x in RawIds(f);
    }
  }

  lemma CoreHas(g: set<Finding>, s: Severity)
    ensures HasSeverity(Cores(g), s) <==> HasSeverity(g, s)
    ensures HasFailedLookup(Cores(g)) <==> HasFailedLookup(g)
  {
    var u := Cores(g);
    if HasSeverity(g, s) { var f :| f in g && f.severity == s; assert Core(f) in u; }
    if HasFailedLookup(g) { var f :| f in g && f.lookupFailed; assert Core(f) in u; }
  }

  lemma CoreTop(g: set<Finding>)
    ensures TopSeverity(Cores(g)) == TopSeverity(g)
  {
    CoreHas(g, Critical);
    CoreHas(g, High);
    CoreHas(g, Medium);
    CoreHas(g, Low);
    hide HasSeverity, HasFailedLookup;
  }

  lemma CoreMerge(g: set<Finding>)
    requires g != {}
    ensures Cores(g) != {} && SameCore(MergeMany(Cores(g)), MergeMany(g))
  {
    var any :| any in g;
    assert Core(any) in Cores(g);
    CoreIds(g);
    CoreTop(g);
    CoreHas(g, Low);
    hide HasSeverity, HasReach, HasExploited, HasFailedLookup, TopSeverity, TopReach, OwnIds, AllIds, RepresentativeId, Cores;
  }

  /** Reachability and catalog flags decide nothing but the merged reachability and flag. */
  lemma SameCoresMerge(g: set<Finding>, h: set<Finding>)
    requires g != {} && h != {} && Cores(g) == Cores(h)
    ensures SameCore(MergeMany(g), MergeMany(h))
    ensures MergeMany(g).reach == TopReach(g) && MergeMany(g).exploited == HasExploited(g)
    ensures MergeMany(h).reach == TopReach(h) && MergeMany(h).exploited == HasExploited(h)
  {
    CoreMerge(g);
    CoreMerge(h);
    hide TopReach, HasExploited, Cores, Core;
  }

  lemma SameCoresSameIds(fs: seq<Finding>, gs: seq<Finding>)
    requires |fs| == |gs| && forall j :: 0 <= j < |fs| ==> SameCore(fs[j], gs[j])
    ensures SameIds(fs, gs)
  {
  }

  /** A member of i's group, and its twin in the other list's group. */
  lemma MemberTwin(fs: seq<Finding>, gs: seq<Finding>, i: int, f: Finding) returns (j: int)
    requires SameIds(fs, gs) && f in Class(fs, i)
    ensures 0 <= j < |fs| && fs[j] == f && gs[j] in Class(gs, i)
  {
    j :| 0 <= j < |fs| && Linked(fs, i, j) && fs[j] == f;
    SameIdsSameLinks(fs, gs, i, j);
  }

  lemma SameCoreClass(fs: seq<Finding>, gs: seq<Finding>, i: int)
    requires SameIds(fs, gs) && 0 <= i < |fs| && forall j :: 0 <= j < |fs| ==> SameCore(fs[j], gs[j])
    ensures Class(fs, i) != {} && Cores(Class(fs, i)) <= Cores(Class(gs, i))
  {
    LinkedReflexive(fs, i);
    assert fs[i] in Class(fs, i);
    hide Class, SameIds;
    forall x | x in Cores(Class(fs, i)) ensures x in Cores(Class(gs, i)) {
      var f :| f in Class(fs, i) && Core(f) == x;
      var j := MemberTwin(fs, gs, i, f);
      assert SameCore(fs[j], gs[j]);
    }
  }

  /** Twin lists merge into twin findings; only a group of several takes its reachability and flag from its members. */
  lemma SameCoreGroup(fs: seq<Finding>, gs: seq<Finding>, i: int)
    requires |fs| == |gs| && 0 <= i < |fs| && forall j :: 0 <= j < |fs| ==> SameCore(fs[j], gs[j])
    ensures SameIds(fs, gs) && (Unlinked(fs, i) <==> Unlinked(gs, i))
    ensures Unlinked(fs, i) ==> GroupValue(fs, i) == fs[i] && GroupValue(gs, i) == gs[i]
    ensures SameCore(GroupValue(fs, i), GroupValue(gs, i))
    ensures !Unlinked(fs, i) ==>
      && GroupValue(fs, i).reach == TopReach(Class(fs, i)) && GroupValue(fs, i).exploited == HasExploited(Class(fs, i))
      && GroupValue(gs, i).reach == TopReach(Class(gs, i)) && GroupValue(gs, i).exploited == HasExploited(Class(gs, i))
  {
    hide SameIds, SameCore, MergeMany, Unlinked, Class, TopReach, HasExploited;
    SameCoresSameIds(fs, gs);
    SameIdsUnlinked(fs, gs, i);
    SameIdsBack(fs, gs);
    SameCoreBack(fs, gs);
    SameCoreClass(fs, gs, i);
    SameCoreClass(gs, fs, i);
    SameCoresMerge(Class(fs, i), Class(gs, i));
  }

  lemma SameIdsBack(fs: seq<Finding>, gs: seq<Finding>)
    requires SameIds(fs, gs)
    ensures SameIds(gs, fs)
  {
  }

  lemma SameCoreBack(fs: seq<Finding>, gs: seq<Finding>)
    requires |fs| == |gs| && forall j :: 0 <= j < |fs| ==> SameCore(fs[j], gs[j])
    ensures forall j :: 0 <= j < |gs| ==> SameCore(gs[j], fs[j])
  {
  }

  // ---- Order independence ----

  ghost predicate HasIds(fs: seq<Finding>) { forall f :: f in fs ==> Ids(f) != {} }

  ghost predicate ValuePath(s: set<Finding>, p: seq<Finding>) {
    && |p| > 0 && (forall k :: 0 <= k < |p| ==> p[k] in s)
    && forall k :: 0 <= k < |p| - 1 ==> Shares(p[k], p[k + 1])
  }

  ghost predicate LinkedIn(s: set<Finding>, f: Finding, g: Finding) {
    exists p :: ValuePath(s, p) && p[0] == f && p[|p| - 1] == g
  }

  /** Being linked depends on the findings, not on where they stand. */
  lemma LinkedByValue(fs: seq<Finding>, i: int, j: int)
    requires 0 <= i < |fs| && 0 <= j < |fs| && HasIds(fs)
    ensures Linked(fs, i, j) <==> LinkedIn(AllOf(fs), fs[i], fs[j])
  {
    if Linked(fs, i, j) {
      var p :| Path(fs, p) && p[0] == i && p[|p| - 1] == j;
      var v := seq(|p|, k requires 0 <= k < |p| => fs[p[k]]);
      forall k | 0 <= k < |v| - 1 ensures Shares(v[k], v[k + 1]) { assert Shares(fs[p[k]], fs[p[k + 1]]); }
      assert ValuePath(AllOf(fs), v) && v[0] == fs[i] && v[|v| - 1] == fs[j];
    }
    if LinkedIn(AllOf(fs), fs[i], fs[j]) {
      var v :| ValuePath(AllOf(fs), v) && v[0] == fs[i] && v[|v| - 1] == fs[j];
      ValuePathLinks(fs, v, i, j);
    }
  }

  lemma {:induction false} ValuePathLinks(fs: seq<Finding>, v: seq<Finding>, i: int, j: int)
    requires 0 <= i < |fs| && 0 <= j < |fs| && HasIds(fs)
    requires ValuePath(AllOf(fs), v) && v[0] == fs[i] && v[|v| - 1] == fs[j]
    ensures Linked(fs, i, j)
  {
    if |v| == 1 {
      assert Ids(fs[i]) * Ids(fs[j]) == Ids(fs[i]);
      assert fs[i] in fs;
      LinkedStep(fs, i, j);
    } else {
      assert v[1] in AllOf(fs);
      var k :| 0 <= k < |fs| && fs[k] == v[1];
      assert Shares(v[0], v[1]);
      LinkedStep(fs, i, k);
      var w := v[1..];
      forall x | 0 <= x < |w| - 1 ensures Shares(w[x], w[x + 1]) { assert Shares(v[x + 1], v[x + 2]); }
      ValuePathLinks(fs, w, k, j);
      LinkedTransitive(fs, i, k, j);
    }
  }

  ghost function Elements(m: multiset<Finding>): set<Finding> { set x | x in m }

  ghost function ClassOf(m: multiset<Finding>, f: Finding): set<Finding> {
    set g | g in m && LinkedIn(Elements(m), f, g)
  }

  /** GroupValue written without positions. */
  ghost function Canonical(m: multiset<Finding>, f: Finding): Finding {
    if m[f] == 1 && ClassOf(m, f) == {f} then f
    else if ClassOf(m, f) == {} then f
    else MergeMany(ClassOf(m, f))
  }

  lemma GroupIsCanonical(fs: seq<Finding>, i: int)
    requires 0 <= i < |fs| && HasIds(fs)
    ensures GroupValue(fs, i) == Canonical(multiset(fs), fs[i])
    ensures Class(fs, i) == ClassOf(multiset(fs), fs[i])
  {
    var m := multiset(fs);
    assert Elements(m) == AllOf(fs);
    forall j | 0 <= j < |fs| ensures Linked(fs, i, j) <==> LinkedIn(AllOf(fs), fs[i], fs[j]) { LinkedByValue(fs, i, j); }
    assert Class(fs, i) == ClassOf(m, fs[i]) by {
      forall g | g in ClassOf(m, fs[i]) ensures g in Class(fs, i) {
        var j :| 0 <= j < |fs| && fs[j] == g;
      }
    }
    LinkedReflexive(fs, i);
    assert fs[i] in Class(fs, i);
    OnceIffUnlinked(fs, i);
  }

  /** The list without position i. */
  ghost function Without(fs: seq<Finding>, i: int): seq<Finding>
    requires 0 <= i < |fs|
  {
    fs[..i] + fs[i + 1..]
  }

  lemma WithoutHas(fs: seq<Finding>, i: int)
    requires 0 <= i < |fs|
    ensures multiset(fs) == multiset(Without(fs, i)) + multiset{fs[i]}
    ensures forall j :: 0 <= j < |fs| && j != i ==> fs[j] in Without(fs, i)
    ensures forall x :: x in Without(fs, i) ==> exists j :: 0 <= j < |fs| && j != i && fs[j] == x
  {
    var rest := Without(fs, i);
    assert fs == fs[..i] + [fs[i]] + fs[i + 1..];
    forall j | 0 <= j < |fs| && j != i ensures fs[j] in rest { assert fs[j] == rest[if j < i then j else j - 1]; }
    forall x | x in rest ensures exists j :: 0 <= j < |fs| && j != i && fs[j] == x {
      var k :| 0 <= k < |rest| && rest[k] == x;
      assert fs[if k < i then k else k + 1] == x;
    }
  }

  lemma OnceIffUnlinked(fs: seq<Finding>, i: int)
    requires 0 <= i < |fs| && HasIds(fs)
    ensures Unlinked(fs, i) <==> multiset(fs)[fs[i]] == 1 && Class(fs, i) == {fs[i]}
  {
    LinkedReflexive(fs, i);
    var rest := Without(fs, i);
    WithoutHas(fs, i);
    assert fs[i] in Class(fs, i);
    if Unlinked(fs, i) {
      if fs[i] in rest {
        var j :| 0 <= j < |fs| && j != i && fs[j] == fs[i];
        assert fs[i] in fs && Ids(fs[i]) * Ids(fs[j]) == Ids(fs[i]);
        LinkedStep(fs, i, j);
      }
      assert Class(fs, i) == {fs[i]};
    } else {
      var j :| 0 <= j < |fs| && Linked(fs, i, j) && j != i;
      assert fs[j] in rest && fs[j] in Class(fs, i);
      if fs[j] == fs[i] { assert multiset(rest)[fs[i]] > 0; }
    }
  }

  lemma OutputsAreCanonical(fs: seq<Finding>, x: Finding)
    requires HasIds(fs)
    ensures x in Merged(fs) <==> exists f :: f in multiset(fs) && x == Canonical(multiset(fs), f)
  {
    var l := LeadersUpTo(fs, |fs|);
    if x in Merged(fs) {
      var k :| 0 <= k < |l| && Merged(fs)[k] == x;
      assert l[k] in l;
      GroupIsCanonical(fs, l[k]);
      assert fs[l[k]] in multiset(fs);
    }
    if f :| f in multiset(fs) && x == Canonical(multiset(fs), f) {
      var j :| 0 <= j < |fs| && fs[j] == f;
      var k := OutputFor(fs, j);
      var i := l[k];
      GroupIsCanonical(fs, i);
      GroupIsCanonical(fs, j);
      assert GroupValue(fs, i) == GroupValue(fs, j) by { SameGroup(fs, i, j); }
      assert Merged(fs)[k] == x;
    }
  }

  lemma SameGroup(fs: seq<Finding>, i: int, j: int)
    requires 0 <= i < |fs| && 0 <= j < |fs| && Linked(fs, i, j)
    ensures GroupValue(fs, i) == GroupValue(fs, j)
  {
    LinkedSymmetric(fs, i, j);
    forall k | 0 <= k < |fs| ensures Linked(fs, i, k) <==> Linked(fs, j, k) {
      if Linked(fs, i, k) { LinkedTransitive(fs, j, i, k); }
      if Linked(fs, j, k) { LinkedTransitive(fs, i, j, k); }
    }
    if i != j {
      assert !Unlinked(fs, i) && !Unlinked(fs, j);
      assert Class(fs, i) == Class(fs, j);
    }
  }

  lemma {:induction false} DistinctCounts<T>(s: seq<T>, x: T)
    requires forall i, j :: 0 <= i < j < |s| ==> s[i] != s[j]
    ensures multiset(s)[x] == if x in s then 1 else 0
  {
    if s != [] {
      var n := |s| - 1;
      DistinctCounts(s[..n], x);
      assert s == s[..n] + [s[n]];
    }
  }

  lemma MergedDistinct(fs: seq<Finding>)
    requires HasIds(fs)
    ensures forall i, j :: 0 <= i < j < |Merged(fs)| ==> Merged(fs)[i] != Merged(fs)[j]
    ensures HasIds(Merged(fs))
  {
    MergedDisjoint(fs);
    var l := LeadersUpTo(fs, |fs|);
    forall k | 0 <= k < |Merged(fs)| ensures Ids(Merged(fs)[k]) != {} {
      assert l[k] in l;
      GroupIds(fs, l[k]);
      LinkedReflexive(fs, l[k]);
      assert fs[l[k]] in Class(fs, l[k]) && fs[l[k]] in fs;
      var x :| x in Ids(fs[l[k]]);
      assert x in AllIds(Class(fs, l[k]));
    }
    forall i, j | 0 <= i < j < |Merged(fs)| ensures Merged(fs)[i] != Merged(fs)[j] {
      assert !Shares(Merged(fs)[i], Merged(fs)[j]);
      assert Ids(Merged(fs)[i]) * Ids(Merged(fs)[i]) == Ids(Merged(fs)[i]);
    }
  }

  /** The order in which the databases list a row's findings never changes what they merge into. */
  lemma MergeOrderIndependent(fs: seq<Finding>, gs: seq<Finding>)
    requires multiset(fs) == multiset(gs) && HasIds(fs)
    ensures multiset(Merged(fs)) == multiset(Merged(gs))
  {
    forall f | f in gs ensures Ids(f) != {} { assert f in multiset(fs); assert f in fs; }
    MergedDistinct(fs);
    MergedDistinct(gs);
    forall x ensures multiset(Merged(fs))[x] == multiset(Merged(gs))[x] {
      OutputsAreCanonical(fs, x);
      OutputsAreCanonical(gs, x);
      DistinctCounts(Merged(fs), x);
      DistinctCounts(Merged(gs), x);
    }
  }
}
