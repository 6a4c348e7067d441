/** One row's score (pkg/grade/engine.go): the two tables, the vulnerability score and the upkeep score. */
module Scoring {
  import opened GradeTypes
  import opened Ordering

  const IMPORTED_CAP := 50
  const FURTHER_ADVISORY_ADD := 5
  const EXPLOITED_FLOOR := 76
  const TEST_ONLY_CAP := 50

  const UPKEEP_SELF := 35
  const UPKEEP_DEPENDENCY := 20
  const UPKEEP_MINOR := 10

  function BandOf(score: int): Letter {
    if score <= 10 then LetterA
    else if score <= 25 then LetterB
    else if score <= 50 then LetterC
    else if score <= 75 then LetterD
    else LetterF
  }

  function Max(a: int, b: int): int { if a >= b then a else b }

  function Min(a: int, b: int): int { if a <= b then a else b }

  /** An unknown severity is scored as MEDIUM and flagged. */
  function SeverityOf(s: Severity): Severity {
    if s == Unrated then Medium else s
  }

  predicate HighOrCritical(s: Severity) { s == High || s == Critical }

  function TierOf(reach: Reach, isSelf: bool): Tier {
    if isSelf then TierCalled
    else match reach
      case Called => TierCalled
      case Imported => TierImported
      case Required => TierGraphOnly
      case Undetermined => TierCalled
  }

  function TableScore(tier: Tier, sev: Severity): int {
    match tier
    case TierCalled =>
      (match sev case Critical => 90 case High => 70 case Medium => 45 case Low => 15 case Unrated => 0)
    case TierImported =>
      (match sev case Critical => 50 case High => 49 case Medium => 32 case Low => 11 case Unrated => 0)
    case TierGraphOnly => 0
  }

  function ScoreFinding(f: Finding, r: Row): Scored {
    var sev := SeverityOf(f.severity);
    var notBuilt := !r.isSelf && r.inBuild == No;
    var tier := if notBuilt then TierGraphOnly else TierOf(f.reach, r.isSelf);
    var assumed := !notBuilt && f.reach == Undetermined;
    Scored(f, sev, f.severity == Unrated, tier, assumed, TableScore(tier, sev))
  }

  /** What every list handed to the vulnerability score satisfies. */
  predicate WellScored(s: Scored) {
    s.sev != Unrated && s.score == TableScore(s.tier, s.sev)
  }

  function ScoreAll(fs: seq<Finding>, r: Row): (ss: seq<Scored>)
    ensures |ss| == |fs|
    ensures forall i :: 0 <= i < |fs| ==> ss[i] == ScoreFinding(fs[i], r) && WellScored(ss[i])
  {
    seq(|fs|, i requires 0 <= i < |fs| => ScoreFinding(fs[i], r))
  }

  function OfTier(fs: seq<Scored>, tier: Tier): (l: seq<Scored>)
    ensures forall x :: x in l <==> x in fs && x.tier == tier
  {
    if fs == [] then []
    else
      var n := |fs| - 1;
      assert forall x :: x in fs <==> x in fs[..n] || x == fs[n];
      if fs[n].tier == tier then OfTier(fs[..n], tier) + [fs[n]] else OfTier(fs[..n], tier)
  }

  // ---- Reference definition of a list's score ----

  /** a comes before b: the higher table value, then the smaller ID. */
  predicate Leads(a: Scored, b: Scored) {
    a.score > b.score || (a.score == b.score && Less(a.finding.id, b.finding.id))
  }

  /** The first finding of the list that no other leads. */
  function Lead(l: seq<Scored>): Option<Scored> {
    if l == [] then None
    else
      var before := Lead(l[..|l| - 1]);
      var x := l[|l| - 1];
      if before == None || Leads(x, before.value) then Some(x) else before
  }

  lemma LeadsTransitive(a: Scored, b: Scored, c: Scored)
    requires Leads(a, b) && !Leads(c, b)
    ensures Leads(a, c)
  {
    LessTotal(b.finding.id, c.finding.id);
    if a.score == b.score && b.score == c.score && Less(b.finding.id, c.finding.id) {
      LessTransitive(a.finding.id, b.finding.id, c.finding.id);
    }
  }

  lemma {:induction false} LeadIsFirst(l: seq<Scored>)
    ensures l == [] <==> Lead(l) == None
    ensures l != [] ==> Lead(l).value in l && forall x :: x in l ==> !Leads(x, Lead(l).value)
  {
    if l != [] {
      var n := |l| - 1;
      var x := l[n];
      LeadIsFirst(l[..n]);
      assert forall y :: y in l <==> y in l[..n] || y == x;
      LessIrreflexive(x.finding.id);
      forall y | y in l ensures !Leads(y, Lead(l).value) {
        if n > 0 && y in l[..n] && Leads(x, Lead(l[..n]).value) {
          LeadsTransitive(x, Lead(l[..n]).value, y);
          if Leads(y, x) {
            LessAsymmetricScores(x, y);
          }
        }
      }
    }
  }

  lemma LessAsymmetricScores(a: Scored, b: Scored)
    requires Leads(a, b)
    ensures !Leads(b, a)
  {
    if a.score == b.score { LessAsymmetric(a.finding.id, b.finding.id); }
  }

  /** The distinct advisories of a list that are high or critical. */
  function HighIds(l: seq<Scored>): set<string> {
    set s | s in l && HighOrCritical(s.sev) :: s.finding.id
  }

  function Further(ids: set<string>): int { if ids == {} then 0 else |ids| - 1 }

  /** A list's score: its worst finding, plus 5 for each further distinct high or critical advisory when bonus is set. */
  function ListScore(l: seq<Scored>, cap: int, bonus: bool): int {
    if l == [] then 0
    else
      LeadIsFirst(l);
      var s := Lead(l).value.score + (if bonus then Further(HighIds(l)) else 0) * FURTHER_ADVISORY_ADD;
      if cap > 0 && s > cap then cap else s
  }

  function ExploitedOf(l: seq<Scored>): (k: seq<Scored>)
    ensures forall x :: x in k <==> x in l && x.finding.exploited
  {
    if l == [] then []
    else
      var n := |l| - 1;
      assert forall x :: x in l <==> x in l[..n] || x == l[n];
      if l[n].finding.exploited then ExploitedOf(l[..n]) + [l[n]] else ExploitedOf(l[..n])
  }

  datatype VulnScore = VulnScore(score: int, estimated: bool)

  /** The vulnerability half of a row's score, in the order of operations the source documents. */
  function VulnScoreOf(testOnly: Tri, fs: seq<Scored>): VulnScore {
    var called := OfTier(fs, TierCalled);
    var imported := OfTier(fs, TierImported);
    var cs := ListScore(called, 0, true);
    var im := ListScore(imported, IMPORTED_CAP, false);
    LeadIsFirst(called);
    LeadIsFirst(imported);
    var top := if cs >= im && called != [] then Lead(called) else Lead(imported);
    var base := Min(if cs >= im && called != [] then cs else im, 100);
    var floored := ExploitedOf(called) != [] && base < EXPLOITED_FLOOR;
    var score := if floored then EXPLOITED_FLOOR else base;
    var est := top.Some? && top.value.estimated && !floored;
    if testOnly == Yes && score > 0 then VulnScore(Min(score / 2, TEST_ONLY_CAP), est) else VulnScore(score, est)
  }

  // ---- The source's algorithm ----

  /** sort.Slice over the advisory IDs: worst table value first, then the smaller ID. */
  method RankIds(byID: map<string, Scored>) returns (ids: seq<string>)
    requires forall id :: id in byID ==> byID[id].finding.id == id
    ensures forall id :: id in ids <==> id in byID
    ensures |ids| == |byID|
    ensures forall i, j :: 0 <= i < j < |ids| ==> Leads(byID[ids[i]], byID[ids[j]])
  {
    ids := [];
    var rest := byID.Keys;
    while rest != {}
      invariant rest <= byID.Keys
      invariant forall id :: id in byID <==> id in ids || id in rest
      invariant forall id :: id in ids ==> id !in rest
      invariant |ids| + |rest| == |byID|
      invariant forall i, j :: 0 <= i < j < |ids| ==> Leads(byID[ids[i]], byID[ids[j]])
      invariant forall i, id :: 0 <= i < |ids| && id in rest ==> Leads(byID[ids[i]], byID[id])
      decreases rest
    {
      var first :| first in rest;
      var others := rest - {first};
      while others != {}
        invariant others <= rest
        invariant first in rest && first !in others
        invariant forall id :: id in rest && id !in others && id != first ==> Leads(byID[first], byID[id])
        decreases others
      {
        var id :| id in others;
        others := others - {id};
        LessTotal(byID[id].finding.id, byID[first].finding.id);
        if Leads(byID[id], byID[first]) {
          forall x | x in rest && x !in others && x != id ensures Leads(byID[id], byID[x]) {
            if x != first {
              LessAsymmetricScores(byID[first], byID[x]);
              LeadsTransitive(byID[id], byID[first], byID[x]);
            }
          }
          first := id;
        }
      }
      ids, rest := ids + [first], rest - {first};
    }
  }

  /** byID holds each advisory of the list at its worst, the first one met when several are as bad. */
  ghost predicate WorstOf(l: seq<Scored>, byID: map<string, Scored>) {
    && (forall id :: id in byID ==> byID[id] in l && byID[id].finding.id == id)
    && (forall x :: x in l ==> x.finding.id in byID && x.score <= byID[x.finding.id].score)
    && (l != [] ==> Lead(l).Some? && Lead(l).value.finding.id in byID && byID[Lead(l).value.finding.id] == Lead(l).value)
  }

  lemma {:induction false} WorstOneMore(l: seq<Scored>, byID: map<string, Scored>, f: Scored)
    requires WorstOf(l, byID)
    ensures WorstOf(l + [f], if f.finding.id !in byID || f.score > byID[f.finding.id].score then byID[f.finding.id := f] else byID)
  {
    var next := l + [f];
    assert next[..|next| - 1] == l && next[|next| - 1] == f;
    LeadIsFirst(l);
    LessIrreflexive(f.finding.id);
    if l != [] && Leads(f, Lead(l).value) && f.finding.id in byID {
      LeadsTransitive(f, Lead(l).value, byID[f.finding.id]);
    }
    hide Leads;
  }

  method WorstByID(l: seq<Scored>) returns (byID: map<string, Scored>)
    ensures WorstOf(l, byID)
  {
    byID := map[];
    assert WorstOf([], byID);
    hide WorstOf;
    for i := 0 to |l|
      invariant WorstOf(l[..i], byID)
    {
      var f := l[i];
      assert l[..i + 1] == l[..i] + [f];
      WorstOneMore(l[..i], byID, f);
      if f.finding.id !in byID || f.score > byID[f.finding.id].score {
        byID := byID[f.finding.id := f];
      }
    }
    assert l[..|l|] == l;
  }

  /** The ranked IDs after the first whose worst finding is high or critical. */
  method CountFurther(byID: map<string, Scored>, ids: seq<string>, bonus: bool)
    returns (further: int, ghost counted: set<string>)
    requires |ids| > 0
    requires forall id :: id in byID ==> byID[id].finding.id == id
    requires forall id :: id in ids ==> id in byID
    requires forall i, j :: 0 <= i < j < |ids| ==> Leads(byID[ids[i]], byID[ids[j]])
    ensures counted == set k | 1 <= k < |ids| && HighOrCritical(byID[ids[k]].sev) :: ids[k]
    ensures further == if bonus then |counted| else 0
  {
    further, counted := 0, {};
    for i := 1 to |ids|
      invariant counted == set k | 1 <= k < i && HighOrCritical(byID[ids[k]].sev) :: ids[k]
      invariant further == if bonus then |counted| else 0
    {
      assert ids[i] !in counted by {
        forall k | 1 <= k < i ensures ids[k] != ids[i] {
          assert Leads(byID[ids[k]], byID[ids[i]]);
          LessIrreflexive(ids[i]);
        }
      }
      if HighOrCritical(byID[ids[i]].sev) {
        counted := counted + {ids[i]};
        if bonus {
          further := further + 1;
        }
      }
    }
  }

  /** The `best` closure of vulnScore: one tier's findings, distinct by ID, each at its worst. */
  method Best(l: seq<Scored>, cap: int, bonus: bool) returns (score: int, top: Option<Scored>)
    requires forall x :: x in l ==> WellScored(x) && x.tier != TierGraphOnly
    requires forall x, y :: x in l && y in l ==> x.tier == y.tier
    ensures score == ListScore(l, cap, bonus) && top == Lead(l)
  {
    if |l| == 0 {
      return 0, None;
    }
    var byID := WorstByID(l);
    LeadIsFirst(l);
    var ids := RankIds(byID);
    assert Lead(l).value.finding.id in ids;
    TopRanked(l, byID, ids);
    top := Some(byID[ids[0]]);
    var further, counted := CountFurther(byID, ids, bonus);
    FurtherCounts(l, byID, ids, counted);
    score := top.value.score + further * FURTHER_ADVISORY_ADD;
    if cap > 0 && score > cap {
      score := cap;
    }
  }

  lemma TopRanked(l: seq<Scored>, byID: map<string, Scored>, ids: seq<string>)
    requires l != [] && WorstOf(l, byID)
    requires forall id :: id in ids <==> id in byID
    requires forall i, j :: 0 <= i < j < |ids| ==> Leads(byID[ids[i]], byID[ids[j]])
    ensures |ids| > 0 && ids[0] in byID && byID[ids[0]] == Lead(l).value
  {
    LeadIsFirst(l);
    assert Lead(l).value.finding.id in ids;
    var k :| 0 <= k < |ids| && ids[k] == Lead(l).value.finding.id;
    assert ids[0] in ids;
    assert k == 0;
  }

  /** In byID an advisory is high or critical exactly when some finding of the list makes it so. */
  lemma HighInByID(l: seq<Scored>, byID: map<string, Scored>, id: string)
    requires WorstOf(l, byID)
    requires forall x :: x in l ==> WellScored(x) && x.tier != TierGraphOnly
    requires forall x, y :: x in l && y in l ==> x.tier == y.tier
    ensures id in HighIds(l) <==> id in byID && HighOrCritical(byID[id].sev)
  {
    if id in HighIds(l) {
      var x :| x in l && HighOrCritical(x.sev) && x.finding.id == id;
      assert byID[id] in l && byID[id].tier == x.tier;
    }
  }

  /** Every distinct high or critical advisory but the top one is counted once. */
  lemma FurtherCounts(l: seq<Scored>, byID: map<string, Scored>, ids: seq<string>, counted: set<string>)
    requires l != [] && |ids| > 0 && WorstOf(l, byID)
    requires forall x :: x in l ==> WellScored(x) && x.tier != TierGraphOnly
    requires forall x, y :: x in l && y in l ==> x.tier == y.tier
    requires forall id :: id in ids <==> id in byID
    requires forall i, j :: 0 <= i < j < |ids| ==> Leads(byID[ids[i]], byID[ids[j]])
    requires counted == set k | 1 <= k < |ids| && HighOrCritical(byID[ids[k]].sev) :: ids[k]
    ensures |counted| == Further(HighIds(l))
  {
    var high := HighIds(l);
    forall id ensures id in high <==> id in byID && HighOrCritical(byID[id].sev) { HighInByID(l, byID, id); }
    assert forall k :: 0 <= k < |ids| ==> ids[k] in ids;
    FirstIsTop(l, byID, ids);
    assert counted == high - {ids[0]} by {
      forall id | id in high - {ids[0]} ensures id in counted {
        assert id in ids;
        var k :| 0 <= k < |ids| && ids[k] == id;
      }
    }
  }

  lemma FirstIsTop(l: seq<Scored>, byID: map<string, Scored>, ids: seq<string>)
    requires l != [] && |ids| > 0 && WorstOf(l, byID)
    requires forall x :: x in l ==> WellScored(x) && x.tier != TierGraphOnly
    requires forall x, y :: x in l && y in l ==> x.tier == y.tier
    requires forall id :: id in ids <==> id in byID
    requires forall i, j :: 0 <= i < j < |ids| ==> Leads(byID[ids[i]], byID[ids[j]])
    ensures forall k :: 1 <= k < |ids| ==> ids[k] != ids[0]
    ensures HighIds(l) != {} ==> ids[0] in HighIds(l)
  {
    assert forall k :: 0 <= k < |ids| ==> ids[k] in ids;
    LessIrreflexive(ids[0]);
    forall k | 1 <= k < |ids| ensures ids[k] != ids[0] { assert Leads(byID[ids[0]], byID[ids[k]]); }
    if high :| high in HighIds(l) {
      HighInByID(l, byID, high);
      HighInByID(l, byID, ids[0]);
      assert high in ids;
      var k :| 0 <= k < |ids| && ids[k] == high;
      assert byID[ids[0]] in l && byID[high] in l;
      if k > 0 { assert Leads(byID[ids[0]], byID[ids[k]]); }
    }
  }

  method SplitTiers(fs: seq<Scored>) returns (called: seq<Scored>, imported: seq<Scored>)
    ensures called == OfTier(fs, TierCalled) && imported == OfTier(fs, TierImported)
  {
    called, imported := [], [];
    for i := 0 to |fs|
      invariant called == OfTier(fs[..i], TierCalled) && imported == OfTier(fs[..i], TierImported)
    {
      assert fs[..i + 1][..i] == fs[..i];
      match fs[i].tier
      case TierCalled => called := called + [fs[i]];
      case TierImported => imported := imported + [fs[i]];
      case TierGraphOnly =>
    }
    assert fs[..|fs|] == fs;
  }

  /** The worst called known-exploited finding, if any. */
  method WorstExploited(called: seq<Scored>) returns (kev: Option<Scored>)
    ensures kev == Lead(ExploitedOf(called))
  {
    kev := None;
    for i := 0 to |called|
      invariant kev == Lead(ExploitedOf(called[..i]))
    {
      var f := called[i];
      assert called[..i + 1][..i] == called[..i];
      LeadIsFirst(ExploitedOf(called[..i]));
      if f.finding.exploited {
        assert ExploitedOf(called[..i + 1])[..|ExploitedOf(called[..i])|] == ExploitedOf(called[..i]);
        if kev == None || f.score > kev.value.score
           || (f.score == kev.value.score && Less(f.finding.id, kev.value.finding.id)) {
          kev := Some(f);
        }
      }
    }
    assert called[..|called|] == called;
  }

  method VulnScoreRow(r: Row, fs: seq<Scored>) returns (score: int, est: bool)
    requires forall x :: x in fs ==> WellScored(x)
    ensures VulnScore(score, est) == VulnScoreOf(r.testOnly, fs)
  {
    var called, imported := SplitTiers(fs);
    var cs, ctop := Best(called, 0, true);
    var im, itop := Best(imported, IMPORTED_CAP, false);
    LeadIsFirst(called);
    LeadIsFirst(imported);
    var top: Option<Scored> := None;
    score := 0;
    if cs >= im && ctop != None {
      score, top := cs, ctop;
    } else if itop != None {
      score, top := im, itop;
    }
    if score > 100 {
      score := 100;
    }
    var kev := WorstExploited(called);
    LeadIsFirst(ExploitedOf(called));
    var floored := false;
    if kev != None && score < EXPLOITED_FLOOR {
      score, top, floored := EXPLOITED_FLOOR, kev, true;
    }
    est := false;
    if top != None {
      est := top.value.estimated && !floored;
    }
    if r.testOnly == Yes && score > 0 {
      var half := score / 2;
      if half > TEST_ONLY_CAP {
        half := TEST_ONLY_CAP;
      }
      score := half;
    }
  }

  // ---- Upkeep and the row ----

  function UpkeepStateOf(u: Upkeep): UpkeepState {
    if u.notAssessed && !u.archived && !u.deprecated && !u.retracted then NotAssessed
    else if u.archived then Archived
    else if u.deprecated || u.retracted then Deprecated
    else if u.missing then MissingData
    else Maintained
  }

  /** The worst upkeep score the row can have: what it scores when it is archived or deprecated. */
  function WorstUpkeep(r: Row): int {
    if r.isSelf then UPKEEP_SELF
    else if r.testOnly == Yes || r.inBuild == No then UPKEEP_MINOR
    else UPKEEP_DEPENDENCY
  }

  function UpkeepScore(r: Row, state: UpkeepState): int {
    if state != Archived && state != Deprecated then 0 else WorstUpkeep(r)
  }

  function RowUpkeep(r: Row): int { UpkeepScore(r, UpkeepStateOf(r.upkeep)) }

  function RowVuln(r: Row): VulnScore { VulnScoreOf(r.testOnly, ScoreAll(r.findings, r)) }

  function RowScore(r: Row): int { Min(Max(RowVuln(r).score, RowUpkeep(r)), 100) }

  predicate ArchivedOrDeprecated(u: Upkeep) { u.archived || u.deprecated || u.retracted }

  /** A row whose unread upkeep could still put it in a worse band shows no letter. */
  function RowLetter(r: Row): Option<Letter> {
    if r.upkeep.missing && !ArchivedOrDeprecated(r.upkeep)
       // the source asks test-only before self here and self first in the score
       && BandOf(if r.testOnly == Yes || r.inBuild == No then UPKEEP_MINOR
                 else if r.isSelf then UPKEEP_SELF else UPKEEP_DEPENDENCY).WorseThan(BandOf(RowScore(r)))
    then None
    else Some(BandOf(RowScore(r)))
  }

  function GradeRow(r: Row): RowResult {
    var vs := RowVuln(r);
    var us := RowUpkeep(r);
    RowResult(r.module_, r.isSelf, r.direct, r.testOnly == Yes, r.inBuild == No,
              RowScore(r), vs.score, us, RowLetter(r), UpkeepStateOf(r.upkeep),
              vs.score > 0 && vs.score >= us && vs.estimated, r.upkeep.missing, r.upkeep.archivedUnread)
  }

  /** gradeRow: the loop that scores the findings, then the row's parts. */
  method GradeRowImpl(r: Row) returns (rr: RowResult)
    ensures rr == GradeRow(r)
  {
    var state := UpkeepStateOf(r.upkeep);
    var fs: seq<Scored> := [];
    for i := 0 to |r.findings|
      invariant fs == ScoreAll(r.findings[..i], r)
    {
      fs := fs + [ScoreFinding(r.findings[i], r)];
    }
    assert r.findings[..|r.findings|] == r.findings;
    var vs, est := VulnScoreRow(r, fs);
    assert RowVuln(r) == VulnScore(vs, est);
    var us := UpkeepScore(r, state);
    var score := vs;
    if us > score {
      score := us;
    }
    if score > 100 {
      score := 100;
    }
    var letter := Some(BandOf(score));
    if r.upkeep.missing && !ArchivedOrDeprecated(r.upkeep) {
      var possible := UPKEEP_DEPENDENCY;
      if r.isSelf {
        possible := UPKEEP_SELF;
      }
      if r.testOnly == Yes || r.inBuild == No {
        possible := UPKEEP_MINOR;
      }
      if BandOf(possible).WorseThan(BandOf(score)) {
        letter := None;
      }
    }
    var shownEstimated := false;
    if vs > 0 && vs >= us {
      shownEstimated := est;
    }
    rr := RowResult(r.module_, r.isSelf, r.direct, r.testOnly == Yes, r.inBuild == No,
                    score, vs, us, letter, state, shownEstimated, r.upkeep.missing, r.upkeep.archivedUnread);
  }
}
