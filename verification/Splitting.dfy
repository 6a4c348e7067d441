/** Splitting a risky dependency into several small modules does not launder its letter. */
module Splitting {
  import opened GradeTypes
  import opened Scoring
  import opened Dedupe
  import opened DedupeLaws
  import opened Tree
  import opened PendingRule
  import opened Engine
  import opened Evidence
  import opened Letters
  import opened Relations
  import opened Sandwich

  // ---- What a split is ----

  /** A row of the same kind: it may have another name and other findings. */
  predicate SameKind(a: Row, b: Row) {
    b == a.(module_ := b.module_, direct := b.direct, findings := b.findings)
  }

  /** The parts hold the row's findings between them, each advisory in one part only. */
  ghost predicate IsSplit(r: Row, parts: seq<Row>) {
    && |parts| > 0
    && (forall p :: p in parts ==> SameKind(r, p))
    && (forall f :: f in r.findings ==> exists p :: p in parts && f in p.findings)
    && (forall p, f :: p in parts && f in p.findings ==> f in r.findings)
    && forall p, q, f, g :: p in parts && q in parts && f in p.findings && g in q.findings && f.id == g.id ==> p == q
  }

  ghost predicate DistinctIds(r: Row) {
    forall f, g :: f in r.findings && g in r.findings && f.id == g.id ==> f == g
  }

  /** The names are told apart: the parts from each other, and the row and its parts from every other row. */
  ghost predicate FreshNames(others: seq<Row>, r: Row, parts: seq<Row>) {
    && (forall p, q :: p in parts && q in parts && p.module_ == q.module_ ==> p == q)
    && (forall o :: o in others ==> o.module_ != r.module_)
    && forall o, p :: o in others && p in parts ==> o.module_ != p.module_
  }

  function Others(a: Input, i: nat): seq<Row>
    requires i < |a.deps|
  {
    [a.self] + a.deps[..i] + a.deps[i + 1..]
  }

  function SplitAt(a: Input, i: nat, parts: seq<Row>): Input
    requires i < |a.deps|
  {
    a.(deps := a.deps[..i] + parts + a.deps[i + 1..])
  }

  ghost predicate Splits(a: Input, i: nat, parts: seq<Row>) {
    && i < |a.deps| && IsSplit(a.deps[i], parts) && DistinctIds(a.deps[i])
    && FreshNames(Others(a, i), a.deps[i], parts)
  }

  lemma SplitRows(a: Input, i: nat, parts: seq<Row>, r: Row)
    requires i < |a.deps|
    ensures r in RowsOf(a) <==> r == a.deps[i] || r in Others(a, i)
    ensures r in RowsOf(SplitAt(a, i, parts)) <==> r in parts || r in Others(a, i)
    ensures r in a.deps <==> r == a.deps[i] || r in a.deps[..i] + a.deps[i + 1..]
    ensures r in SplitAt(a, i, parts).deps <==> r in parts || r in a.deps[..i] + a.deps[i + 1..]
  {
    assert a.deps == a.deps[..i] + [a.deps[i]] + a.deps[i + 1..];
  }

  // ---- The counts ----

  /** A property of a finding on a row of some kind. */
  ghost predicate ReadsKind(p: (Row, Finding) -> bool) {
    forall a, b, f :: SameKind(a, b) ==> p(a, f) == p(b, f)
  }

  ghost function Keys(rows: seq<Row>, p: (Row, Finding) -> bool): set<Key> {
    set r, f | r in rows && f in r.findings && p(r, f) :: Key(r.module_, f.id)
  }

  lemma CountsAreKeys(rows: seq<Row>)
    ensures CalledKeys(rows) == Keys(rows, CountsCalled) && ReachedKeys(rows) == Keys(rows, CountsReached)
    ensures ReadsKind(CountsCalled) && ReadsKind(CountsReached)
  {
  }

  /** Back: a key of a part is a key of the row. */
  function Joined(parts: seq<Row>, r: Row): Key -> Key {
    (k: Key) => if exists p :: p in parts && p.module_ == k.module_ then Key(r.module_, k.id) else k
  }

  lemma JoinedKey(a: Input, i: nat, parts: seq<Row>, p: (Row, Finding) -> bool, k: Key)
    requires Splits(a, i, parts) && ReadsKind(p) && k in Keys(RowsOf(SplitAt(a, i, parts)), p)
    ensures Joined(parts, a.deps[i])(k) in Keys(RowsOf(a), p)
  {
    var r, f :| r in RowsOf(SplitAt(a, i, parts)) && f in r.findings && p(r, f) && k == Key(r.module_, f.id);
    SplitRows(a, i, parts, r);
    SplitRows(a, i, parts, a.deps[i]);
    if r in parts {
      assert SameKind(a.deps[i], r) && p(a.deps[i], f);
    }
  }

  lemma JoinedInjective(a: Input, i: nat, parts: seq<Row>, p: (Row, Finding) -> bool, k: Key, l: Key)
    requires Splits(a, i, parts)
    requires k in Keys(RowsOf(SplitAt(a, i, parts)), p) && l in Keys(RowsOf(SplitAt(a, i, parts)), p)
    requires Joined(parts, a.deps[i])(k) == Joined(parts, a.deps[i])(l)
    ensures k == l
  {
    var r, f :| r in RowsOf(SplitAt(a, i, parts)) && f in r.findings && p(r, f) && k == Key(r.module_, f.id);
    var s, g :| s in RowsOf(SplitAt(a, i, parts)) && g in s.findings && p(s, g) && l == Key(s.module_, g.id);
    SplitRows(a, i, parts, r);
    SplitRows(a, i, parts, s);
  }

  ghost predicate Holds(p: Row, id: string) { exists f :: f in p.findings && f.id == id }

  /** Forth: a key of the row is a key of the part that holds the advisory. */
  ghost function Home(parts: seq<Row>, r: Row, k: Key): Key {
    if k.module_ == r.module_ && exists p :: p in parts && Holds(p, k.id) then
      var p :| p in parts && Holds(p, k.id);
      Key(p.module_, k.id)
    else k
  }

  lemma HomeOfPart(r: Row, parts: seq<Row>, q: Row, f: Finding)
    requires IsSplit(r, parts) && q in parts && f in q.findings
    ensures Home(parts, r, Key(r.module_, f.id)) == Key(q.module_, f.id)
  {
    assert Holds(q, f.id);
    forall p | p in parts && Holds(p, f.id) ensures p == q {
      var g :| g in p.findings && g.id == f.id;
    }
  }

  lemma HomeKey(a: Input, i: nat, parts: seq<Row>, p: (Row, Finding) -> bool, k: Key)
    requires Splits(a, i, parts) && ReadsKind(p) && k in Keys(RowsOf(a), p)
    ensures Home(parts, a.deps[i], k) in Keys(RowsOf(SplitAt(a, i, parts)), p)
    ensures Joined(parts, a.deps[i])(Home(parts, a.deps[i], k)) == k
  {
    var r, f :| r in RowsOf(a) && f in r.findings && p(r, f) && k == Key(r.module_, f.id);
    SplitRows(a, i, parts, r);
    if r == a.deps[i] {
      var q :| q in parts && f in q.findings;
      HomeOfPart(r, parts, q, f);
      hide Home;
      SplitRows(a, i, parts, q);
      assert SameKind(r, q) && p(q, f);
    } else {
      assert r in Others(a, i);
    }
  }

  ghost function HomeOf(parts: seq<Row>, r: Row): Key -> Key { k => Home(parts, r, k) }

  lemma KeysConserved(a: Input, i: nat, parts: seq<Row>, p: (Row, Finding) -> bool)
    requires Splits(a, i, parts) && ReadsKind(p)
    ensures |Keys(RowsOf(SplitAt(a, i, parts)), p)| == |Keys(RowsOf(a), p)|
  {
    hide Keys, Joined, Home, ReadsKind, RowsOf, SplitAt;
    assert i < |a.deps|;
    hide Splits;
    var ka, kb := Keys(RowsOf(a), p), Keys(RowsOf(SplitAt(a, i, parts)), p);
    var back, forth := Joined(parts, a.deps[i]), HomeOf(parts, a.deps[i]);
    forall k | k in kb ensures back(k) in ka { JoinedKey(a, i, parts, p, k); }
    forall k, l | k in kb && l in kb && back(k) == back(l) ensures k == l { JoinedInjective(a, i, parts, p, k, l); }
    InjectionCount(kb, ka, back);
    forall k | k in ka ensures forth(k) in kb && back(forth(k)) == k { HomeKey(a, i, parts, p, k); }
    InjectionCount(ka, kb, forth);
  }

  // ---- The letter ----

  lemma KindAlone(a: Row, b: Row, f: Finding)
    requires SameKind(a, b)
    ensures Alone(a, f) == Alone(b, f) && RowUpkeep(a) == RowUpkeep(b)
  {
  }

  lemma SplitFindingEvidence(a: Input, i: nat, parts: seq<Row>, l: Letter)
    requires Splits(a, i, parts)
    ensures FindingEvidence(a, l) <==> FindingEvidence(SplitAt(a, i, parts), l)
  {
    hide Alone;
    var b, r := SplitAt(a, i, parts), a.deps[i];
    if s :| s in RowsOf(a) && SomeAlone(s, l) {
      SplitRows(a, i, parts, s);
      if s == r {
        var f :| f in r.findings && AtLeast(Alone(r, f), l);
        var q :| q in parts && f in q.findings;
        KindAlone(r, q, f);
        SplitRows(a, i, parts, q);
        assert SomeAlone(q, l);
      }
    }
    if s :| s in RowsOf(b) && SomeAlone(s, l) {
      SplitRows(a, i, parts, s);
      if s in parts {
        var f :| f in s.findings && AtLeast(Alone(s, f), l);
        KindAlone(r, s, f);
        SplitRows(a, i, parts, r);
        assert SomeAlone(r, l);
      }
    }
  }

  lemma SplitUpkeepEvidence(a: Input, i: nat, parts: seq<Row>, l: Letter)
    requires Splits(a, i, parts)
    ensures UpkeepEvidence(a, l) <==> UpkeepEvidence(SplitAt(a, i, parts), l)
  {
    hide RowUpkeep;
    var b, r := SplitAt(a, i, parts), a.deps[i];
    var any := parts[0];
    if s :| s in RowsOf(a) && AtLeast(BandOf(RowUpkeep(s)), l) {
      SplitRows(a, i, parts, s);
      if s == r {
        SameKindUpkeep(r, any);
        SplitRows(a, i, parts, any);
      }
    }
    if s :| s in RowsOf(b) && AtLeast(BandOf(RowUpkeep(s)), l) {
      SplitRows(a, i, parts, s);
      if s in parts {
        SameKindUpkeep(r, s);
        SplitRows(a, i, parts, r);
      }
    }
  }

  lemma SameKindUpkeep(a: Row, b: Row)
    requires SameKind(a, b)
    ensures RowUpkeep(a) == RowUpkeep(b)
  {
  }

  lemma SplitSameLetter(a: Input, i: nat, parts: seq<Row>)
    requires Splits(a, i, parts)
    ensures RawLetter(SplitAt(a, i, parts)) == RawLetter(a)
  {
    hide RawLetter, FindingEvidence, UpkeepEvidence, CalledKeys, ReachedKeys, Keys, RowsOf, ReadsKind, IsSplit, FreshNames, DistinctIds;
    var b := SplitAt(a, i, parts);
    assert a.checksumMismatch == b.checksumMismatch;
    hide Splits, SplitAt;
    CountsAreKeys(RowsOf(a));
    CountsAreKeys(RowsOf(b));
    KeysConserved(a, i, parts, CountsCalled);
    KeysConserved(a, i, parts, CountsReached);
    forall l ensures HasEvidence(a, l) <==> HasEvidence(b, l) {
      SplitFindingEvidence(a, i, parts, l);
      SplitUpkeepEvidence(a, i, parts, l);
    }
    SameEvidenceSameLetter(a, b);
  }

  lemma SplitSamePending(a: Input, i: nat, parts: seq<Row>, s: int, t: int)
    requires Splits(a, i, parts) && BandOf(s) == BandOf(t)
    ensures PendingOf(SplitAt(a, i, parts), t) == PendingOf(a, s)
  {
    var b, r := SplitAt(a, i, parts), a.deps[i];
    var any := parts[0];
    assert SameKind(r, any);
    forall d | d in a.deps && Withholds(d, s) ensures exists e :: e in b.deps && Withholds(e, t) {
      SplitRows(a, i, parts, d);
      SplitRows(a, i, parts, any);
      assert Withholds(if d == r then any else d, t);
    }
    forall d | d in b.deps && Withholds(d, t) ensures exists e :: e in a.deps && Withholds(e, s) {
      SplitRows(a, i, parts, d);
      SplitRows(a, i, parts, r);
      if d in parts { assert SameKind(r, d); }
      assert Withholds(if d in parts then r else d, s);
    }
  }

  lemma SplitGraded(a: Input, i: nat, parts: seq<Row>)
    requires Splits(a, i, parts)
    ensures GradeMerged(SplitAt(a, i, parts)).letter == GradeMerged(a).letter
    ensures GradeMerged(SplitAt(a, i, parts)).pending == GradeMerged(a).pending
  {
    var b := SplitAt(a, i, parts);
    hide GradeMerged, Splits, PendingOf, LetterScore, SplitAt;
    SplitSameLetter(a, i, parts);
    VerdictOf(a);
    VerdictOf(b);
    SplitSamePending(a, i, parts, LetterScore(a), LetterScore(b));
  }

  // ---- Through Grade ----

  function MapParts(parts: seq<Row>, g: Finding -> Finding): (out: seq<Row>)
    ensures |out| == |parts| && forall k :: 0 <= k < |parts| ==> out[k] == MapRow(parts[k], g)
  {
    seq(|parts|, k requires 0 <= k < |parts| => MapRow(parts[k], g))
  }

  lemma MapPartsHas(parts: seq<Row>, g: Finding -> Finding, q: Row) returns (p: Row)
    requires q in MapParts(parts, g)
    ensures p in parts && q == MapRow(p, g)
  {
    var k :| 0 <= k < |parts| && MapParts(parts, g)[k] == q;
    p := parts[k];
  }

  lemma MapRowHas(r: Row, g: Finding -> Finding, h: Finding) returns (f: Finding)
    requires h in MapRow(r, g).findings
    ensures f in r.findings && h == g(f)
  {
    var j :| 0 <= j < |r.findings| && MapRow(r, g).findings[j] == h;
    f := r.findings[j];
  }

  lemma MapRowKeeps(r: Row, g: Finding -> Finding, f: Finding)
    requires f in r.findings
    ensures g(f) in MapRow(r, g).findings
  {
    var j :| 0 <= j < |r.findings| && r.findings[j] == f;
    assert MapRow(r, g).findings[j] == g(f);
  }

  lemma MappedCovers(r: Row, parts: seq<Row>, g: Finding -> Finding, h: Finding)
    requires IsSplit(r, parts) && h in MapRow(r, g).findings
    ensures exists q :: q in MapParts(parts, g) && h in q.findings
  {
    var f := MapRowHas(r, g, h);
    var p :| p in parts && f in p.findings;
    var k :| 0 <= k < |parts| && parts[k] == p;
    MapRowKeeps(p, g, f);
    assert MapParts(parts, g)[k] in MapParts(parts, g) && h in MapParts(parts, g)[k].findings;
  }

  lemma MappedInside(r: Row, parts: seq<Row>, g: Finding -> Finding, q: Row)
    requires IsSplit(r, parts) && q in MapParts(parts, g)
    ensures SameKind(MapRow(r, g), q) && forall h :: h in q.findings ==> h in MapRow(r, g).findings
  {
    var p := MapPartsHas(parts, g, q);
    assert SameKind(r, p);
    forall h | h in q.findings ensures h in MapRow(r, g).findings {
      var f := MapRowHas(p, g, h);
      MapRowKeeps(r, g, f);
    }
  }

  lemma MappedApart(r: Row, parts: seq<Row>, g: Finding -> Finding, q: Row, t: Row, h: Finding, e: Finding)
    requires IsSplit(r, parts) && q in MapParts(parts, g) && t in MapParts(parts, g)
    requires h in q.findings && e in t.findings && h.id == e.id && forall f :: SameAdvisory(f, g(f))
    ensures q == t
  {
    var p := MapPartsHas(parts, g, q);
    var o := MapPartsHas(parts, g, t);
    var f := MapRowHas(p, g, h);
    var d := MapRowHas(o, g, e);
    assert SameAdvisory(f, h) && SameAdvisory(d, e);
    assert p == o;
  }

  lemma MappedDistinct(r: Row, g: Finding -> Finding)
    requires DistinctIds(r) && forall f :: SameAdvisory(f, g(f))
    ensures DistinctIds(MapRow(r, g))
  {
    var s := MapRow(r, g);
    forall h, e | h in s.findings && e in s.findings && h.id == e.id ensures h == e {
      var f := MapRowHas(r, g, h);
      var d := MapRowHas(r, g, e);
      assert SameAdvisory(f, h) && SameAdvisory(d, e);
    }
  }

  lemma MappedSplit(r: Row, parts: seq<Row>, g: Finding -> Finding)
    requires IsSplit(r, parts) && DistinctIds(r) && forall f :: SameAdvisory(f, g(f))
    ensures IsSplit(MapRow(r, g), MapParts(parts, g)) && DistinctIds(MapRow(r, g))
  {
    var s, qs := MapRow(r, g), MapParts(parts, g);
    MappedDistinct(r, g);
    assert |qs| > 0;
    forall q | q in qs ensures SameKind(s, q) && forall h :: h in q.findings ==> h in s.findings { MappedInside(r, parts, g, q); }
    forall h | h in s.findings ensures exists q :: q in qs && h in q.findings { MappedCovers(r, parts, g, h); }
    forall q, t, h, e | q in qs && t in qs && h in q.findings && e in t.findings && h.id == e.id ensures q == t {
      MappedApart(r, parts, g, q, t, h, e);
    }
    hide SameKind, MapRow, MapParts;
  }

  /** Fresh names stay fresh when rows change but keep their names. */
  lemma NamesCarry(os: seq<Row>, r: Row, ps: seq<Row>, os': seq<Row>, r': Row, ps': seq<Row>)
    requires FreshNames(os, r, ps) && r'.module_ == r.module_
    requires |os'| == |os| && forall k :: 0 <= k < |os| ==> os'[k].module_ == os[k].module_
    requires |ps'| == |ps| && forall k :: 0 <= k < |ps| ==> ps'[k].module_ == ps[k].module_
    requires forall k, l :: 0 <= k < |ps| && 0 <= l < |ps| && ps[k] == ps[l] ==> ps'[k] == ps'[l]
    ensures FreshNames(os', r', ps')
  {
    forall p, q | p in ps' && q in ps' && p.module_ == q.module_ ensures p == q {
      var k :| 0 <= k < |ps'| && ps'[k] == p;
      var l :| 0 <= l < |ps'| && ps'[l] == q;
      assert ps[k] in ps && ps[l] in ps;
    }
    forall o | o in os' ensures o.module_ != r'.module_ {
      var k :| 0 <= k < |os'| && os'[k] == o;
      assert os[k] in os;
    }
    forall o, p | o in os' && p in ps' ensures o.module_ != p.module_ {
      var k :| 0 <= k < |os'| && os'[k] == o;
      var l :| 0 <= l < |ps'| && ps'[l] == p;
      assert os[k] in os && ps[l] in ps;
    }
  }

  lemma MappedFresh(a: Input, i: nat, parts: seq<Row>, g: Finding -> Finding)
    requires Splits(a, i, parts) && forall f :: SameAdvisory(f, g(f))
    ensures Splits(MapInput(a, g), i, MapParts(parts, g))
    ensures SplitAt(MapInput(a, g), i, MapParts(parts, g)) == MapInput(SplitAt(a, i, parts), g)
  {
    MappedSplit(a.deps[i], parts, g);
    hide IsSplit, DistinctIds, SameAdvisory, FreshNames;
    NamesCarry(Others(a, i), a.deps[i], parts, Others(MapInput(a, g), i), MapRow(a.deps[i], g), MapParts(parts, g));
    MappedAt(a, i, parts, g);
  }

  lemma MappedAt(a: Input, i: nat, parts: seq<Row>, g: Finding -> Finding)
    requires i < |a.deps|
    ensures SplitAt(MapInput(a, g), i, MapParts(parts, g)) == MapInput(SplitAt(a, i, parts), g)
  {
    hide MapRow;
    var x, y := SplitAt(MapInput(a, g), i, MapParts(parts, g)), MapInput(SplitAt(a, i, parts), g);
    forall k | 0 <= k < |x.deps| ensures x.deps[k] == y.deps[k] {}
    assert x.deps == y.deps;
  }

  /** The split row and its parts are free of duplicates, whatever the databases list for the other rows. */
  ghost predicate SplitClean(a: Input, i: nat, parts: seq<Row>) {
    && i < |a.deps| && Disjoint(a.deps[i].findings)
    && forall p :: p in parts ==> Disjoint(p.findings)
  }

  lemma MergedNames(a: Input, i: nat, parts: seq<Row>)
    requires i < |a.deps| && FreshNames(Others(a, i), a.deps[i], parts) && Merged(a.deps[i].findings) == a.deps[i].findings
    ensures FreshNames(Others(MergedInput(a), i), a.deps[i], parts) && MergedInput(a).deps[i] == a.deps[i]
  {
    hide Merged, FreshNames;
    NamesCarry(Others(a, i), a.deps[i], parts, Others(MergedInput(a), i), a.deps[i], parts);
  }

  lemma MergedSplit(a: Input, i: nat, parts: seq<Row>)
    requires i < |a.deps| && forall p :: p in parts ==> MergedRow(p) == p
    ensures SplitAt(MergedInput(a), i, parts) == MergedInput(SplitAt(a, i, parts))
  {
    hide Merged, MergedRow;
    var b, mb := SplitAt(MergedInput(a), i, parts), MergedInput(SplitAt(a, i, parts));
    forall k | 0 <= k < |b.deps| ensures b.deps[k] == mb.deps[k] {
      if i <= k < i + |parts| { assert SplitAt(a, i, parts).deps[k] == parts[k - i] && parts[k - i] in parts; }
    }
    assert b.deps == mb.deps;
  }

  lemma MergedFresh(a: Input, i: nat, parts: seq<Row>)
    requires i < |a.deps| && Splits(a, i, parts) && SplitClean(a, i, parts)
    ensures Splits(MergedInput(a), i, parts)
    ensures SplitAt(MergedInput(a), i, parts) == MergedInput(SplitAt(a, i, parts))
  {
    DisjointUnchanged(a.deps[i].findings);
    forall p | p in parts ensures MergedRow(p) == p { DisjointUnchanged(p.findings); }
    hide IsSplit, DistinctIds, FreshNames, Disjoint, Merged, MergedRow;
    MergedNames(a, i, parts);
    MergedSplit(a, i, parts);
  }

  lemma SplitSameFlags(a: Input, i: nat, parts: seq<Row>)
    requires Splits(a, i, parts)
    ensures HasFailed(SplitAt(a, i, parts)) <==> HasFailed(a)
    ensures HasEstimated(SplitAt(a, i, parts)) <==> HasEstimated(a)
  {
    var b, r := SplitAt(a, i, parts), a.deps[i];
    forall s, f | s in RowsOf(a) && f in s.findings ensures exists t :: t in RowsOf(b) && f in t.findings {
      SplitRows(a, i, parts, s);
      if s == r {
        var q :| q in parts && f in q.findings;
        SplitRows(a, i, parts, q);
      }
    }
    forall s, f | s in RowsOf(b) && f in s.findings ensures exists t :: t in RowsOf(a) && f in t.findings {
      SplitRows(a, i, parts, s);
      SplitRows(a, i, parts, r);
    }
    hide RowsOf, SplitAt, Splits;
  }

  lemma SplitSubstituted(a: Input, i: nat, parts: seq<Row>, g: Finding -> Finding)
    requires i < |a.deps| && Splits(a, i, parts)
    requires Clean(a) && Clean(SplitAt(a, i, parts)) && forall f :: SameAdvisory(f, g(f))
    ensures GradeOnceOf(MapInput(SplitAt(a, i, parts), g)).letter == GradeOnceOf(MapInput(a, g)).letter
  {
    hide GradeOnceOf, GradeMerged, Splits, SplitAt, MapInput, Clean, SameAdvisory, MapParts;
    MappedFresh(a, i, parts, g);
    MappedClean(a, g);
    MappedClean(SplitAt(a, i, parts), g);
    SplitGraded(MapInput(a, g), i, MapParts(parts, g));
  }

  lemma SubstitutionsKeepAdvisories(sev: Severity)
    ensures forall f :: SameAdvisory(f, FailedAs(sev)(f)) && SameAdvisory(f, EstimatedAs(sev)(f))
  {
  }

  lemma SplitAlternatives(a: Input, i: nat, parts: seq<Row>, letter: Option<Letter>)
    requires i < |a.deps| && Splits(a, i, parts) && Clean(a) && Clean(SplitAt(a, i, parts))
    ensures LookupMatters(SplitAt(a, i, parts), letter) == LookupMatters(a, letter)
    ensures EstimateMatters(SplitAt(a, i, parts), letter) == EstimateMatters(a, letter)
  {
    hide GradeOnceOf, Splits, SplitAt, MapInput, Clean, SameAdvisory, HasFailed, HasEstimated;
    SplitSameFlags(a, i, parts);
    SubstitutionsKeepAdvisories(Low);
    SubstitutionsKeepAdvisories(Critical);
    SplitSubstituted(a, i, parts, FailedAs(Low));
    SplitSubstituted(a, i, parts, FailedAs(Critical));
    SplitSubstituted(a, i, parts, EstimatedAs(Low));
    SplitSubstituted(a, i, parts, EstimatedAs(Critical));
  }

  /** Splitting never changes the grade: whatever way a dependency's advisories are spread over new modules of the same kind,
      test-only ones included, Grade gives the same letter, star and pending check, although the rows score differently. */
  lemma SplittingChangesNothing(a: Input, i: nat, parts: seq<Row>)
    requires i < |a.deps| && Splits(a, i, parts) && SplitClean(a, i, parts)
    ensures GradeOf(SplitAt(a, i, parts)).letter == GradeOf(a).letter
    ensures GradeOf(SplitAt(a, i, parts)).pending == GradeOf(a).pending
    ensures GradeOf(SplitAt(a, i, parts)).estimated == GradeOf(a).estimated
  {
    assert |MergedInput(a).deps| == |a.deps|;
    hide GradeOnceOf, GradeMerged, Splits, SplitAt, MergedInput, Clean, LookupMatters, EstimateMatters, SplitClean;
    var m := MergedInput(a);
    var b := SplitAt(a, i, parts);
    MergedFresh(a, i, parts);
    MergedIsClean(a);
    MergedIsClean(b);
    FirstRun(a);
    FirstRun(b);
    SplitGraded(m, i, parts);
    SplitAlternatives(m, i, parts, GradeOnceOf(a).letter);
    GradeMergedNotEstimated(m);
    GradeMergedNotEstimated(MergedInput(b));
  }

  lemma GradeMergedNotEstimated(m: Input)
    ensures !GradeMerged(m).estimated
  {
  }
}
