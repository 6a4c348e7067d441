/** Archived flags that could not be read: which of them matter, and what the worst of them could do. */
module ArchivedUnread {
  import opened GradeTypes
  import opened Ordering
  import opened Scoring
  import opened Dedupe
  import opened Tree
  import opened PendingRule
  import opened Engine
  import opened Evidence
  import opened Letters
  import opened Relations
  import opened Completions

  /** The dependency's flag was read after all and is not set. */
  function FoundUnset(d: Row): Row { d.(upkeep := d.upkeep.(archivedUnread := false)) }

  /** An unread flag stays unread, or turns out to be set or not. */
  predicate RowFound(d: Row, e: Row) { e == d || (d.upkeep.archivedUnread && (e == AsArchived(d) || e == FoundUnset(d))) }

  ghost predicate Found(a: Input, b: Input) {
    && b == a.(deps := b.deps) && |b.deps| == |a.deps|
    && forall i :: 0 <= i < |a.deps| ==> RowFound(a.deps[i], b.deps[i])
  }

  /** The row was not known to be archived and turned out to be. */
  predicate NewlyArchived(d: Row, e: Row) { !d.upkeep.archived && e.upkeep.archived }

  /** Some flag found set puts its row at l or worse. */
  ghost predicate FoundReaches(a: Input, b: Input, l: Letter) {
    exists i :: 0 <= i < |a.deps| && i < |b.deps| && NewlyArchived(a.deps[i], b.deps[i]) && AtLeast(BandOf(WorstUpkeep(a.deps[i])), l)
  }

  // ---- The letter of a completion ----

  lemma FoundSameFindings(a: Input, b: Input)
    requires Found(a, b)
    ensures SameFindings(a, b) && SameFindings(b, a)
  {
    forall i | 0 <= i < |RowsOf(a)| ensures RowsOf(b)[i] == RowsOf(a)[i].(upkeep := RowsOf(b)[i].upkeep) {
      if i > 0 { assert RowFound(a.deps[i - 1], b.deps[i - 1]); }
    }
  }

  lemma FoundRow(d: Row, e: Row)
    requires RowFound(d, e)
    ensures RowUpkeep(e) == if NewlyArchived(d, e) then WorstUpkeep(d) else RowUpkeep(d)
    ensures RowUpkeep(d) <= RowUpkeep(e)
  {
  }

  lemma FoundNoBetter(a: Input, b: Input)
    requires Found(a, b)
    ensures AtLeast(RawLetter(b), RawLetter(a))
  {
    hide RawLetter, RowUpkeep, SameFindings;
    forall l | UpkeepEvidence(a, l) ensures AtLeast(RawLetter(b), l) {
      var r :| r in RowsOf(a) && AtLeast(BandOf(RowUpkeep(r)), l);
      var i :| 0 <= i < |RowsOf(a)| && RowsOf(a)[i] == r;
      if i > 0 { assert RowFound(a.deps[i - 1], b.deps[i - 1]); }
      FoundRow(r, RowsOf(b)[i]);
      assert RowsOf(b)[i] in RowsOf(b);
      BandMonotone(RowUpkeep(r), RowUpkeep(RowsOf(b)[i]));
      RowUpkeepBelow(b, RowsOf(b)[i]);
    }
    FoundSameFindings(a, b);
    UpkeepDecides(b, a);
  }

  lemma FoundUpkeepEvidence(a: Input, b: Input, l: Letter)
    requires Found(a, b) && UpkeepEvidence(b, l)
    ensures AtLeast(RawLetter(a), l) || FoundReaches(a, b, l)
  {
    hide RawLetter, RowUpkeep;
    var s :| s in RowsOf(b) && AtLeast(BandOf(RowUpkeep(s)), l);
    var i :| 0 <= i < |RowsOf(b)| && RowsOf(b)[i] == s;
    if i > 0 { assert RowFound(a.deps[i - 1], b.deps[i - 1]); }
    var r := RowsOf(a)[i];
    FoundRow(r, s);
    if !NewlyArchived(r, s) {
      assert r in RowsOf(a);
      RowUpkeepBelow(a, r);
    }
  }

  lemma FoundReachesIsReached(a: Input, b: Input, l: Letter)
    requires Found(a, b) && FoundReaches(a, b, l)
    ensures AtLeast(RawLetter(b), l)
  {
    hide RawLetter;
    var i :| 0 <= i < |a.deps| && NewlyArchived(a.deps[i], b.deps[i]) && AtLeast(BandOf(WorstUpkeep(a.deps[i])), l);
    assert RowFound(a.deps[i], b.deps[i]);
    FoundRow(a.deps[i], b.deps[i]);
    assert RowsOf(b)[i + 1] == b.deps[i];
    assert b.deps[i] in RowsOf(b);
    RowUpkeepBelow(b, b.deps[i]);
  }

  lemma UpkeepLetter(b: Input, l: Letter)
    ensures AtLeast(RawLetter(b), l) <==> HasEvidence(b, l)
  {
    LetterIsEvidence(b, l);
  }

  /** A completion's letter is the given one, or what the worst flag found set makes it. */
  lemma FoundLetter(a: Input, b: Input, l: Letter)
    requires Found(a, b)
    ensures AtLeast(RawLetter(b), l) <==> AtLeast(RawLetter(a), l) || FoundReaches(a, b, l)
  {
    hide RawLetter, SameFindings, Found, FoundReaches, FindingEvidence, UpkeepEvidence, CalledKeys, ReachedKeys, RowsOf;
    FoundNoBetter(a, b);
    if FoundReaches(a, b, l) { FoundReachesIsReached(a, b, l); }
    if AtLeast(RawLetter(b), l) && !UpkeepEvidence(b, l) {
      FoundSameFindings(a, b);
      SameFindingsBack(a, b);
      SameFindingsEvidence(b, a, l);
      SubsetCount(CalledKeys(RowsOf(b)), CalledKeys(RowsOf(a)));
      SubsetCount(ReachedKeys(RowsOf(b)), ReachedKeys(RowsOf(a)));
      UpkeepLetter(b, l);
      UpkeepLetter(a, l);
    }
    if UpkeepEvidence(b, l) { FoundUpkeepEvidence(a, b, l); }
  }

  lemma FoundPending(a: Input, b: Input, s: int, t: int)
    requires Found(a, b) && PendingOf(a, s).None? && AtLeast(BandOf(t), BandOf(s))
    ensures PendingOf(b, t).None?
  {
    forall d | d in b.deps ensures !Withholds(d, t) {
      var i :| 0 <= i < |b.deps| && b.deps[i] == d;
      assert RowFound(a.deps[i], d) && a.deps[i] in a.deps;
      assert !Withholds(a.deps[i], s);
    }
  }

  lemma FoundGraded(a: Input, b: Input)
    requires Found(a, b) && GradeMerged(a).letter.Some?
    ensures GradeMerged(b).letter == Some(RawLetter(b)) && GradeMerged(a).letter == Some(RawLetter(a))
  {
    hide RawLetter, GradeMerged, PendingOf, LetterScore, Found;
    VerdictOf(a);
    VerdictOf(b);
    FoundNoBetter(a, b);
    RawLetterIs(a);
    RawLetterIs(b);
    FoundPending(a, b, LetterScore(a), LetterScore(b));
  }

  // ---- Through Grade ----

  lemma FoundMerged(a: Input, b: Input)
    requires Found(a, b)
    ensures Found(MergedInput(a), MergedInput(b))
    ensures forall l :: FoundReaches(MergedInput(a), MergedInput(b), l) <==> FoundReaches(a, b, l)
  {
    hide Merged;
    forall i | 0 <= i < |a.deps| ensures RowFound(MergedRow(a.deps[i]), MergedRow(b.deps[i])) {
      assert RowFound(a.deps[i], b.deps[i]);
    }
    forall i | 0 <= i < |a.deps| ensures WorstUpkeep(MergedInput(a).deps[i]) == WorstUpkeep(a.deps[i]) {}
  }

  lemma FoundMapped(a: Input, b: Input, g: Finding -> Finding)
    requires Found(a, b)
    ensures Found(MapInput(a, g), MapInput(b, g))
    ensures forall l :: FoundReaches(MapInput(a, g), MapInput(b, g), l) <==> FoundReaches(a, b, l)
  {
    forall i | 0 <= i < |a.deps| ensures RowFound(MapRow(a.deps[i], g), MapRow(b.deps[i], g)) {
      assert RowFound(a.deps[i], b.deps[i]);
    }
    forall i | 0 <= i < |a.deps| ensures WorstUpkeep(MapInput(a, g).deps[i]) == WorstUpkeep(a.deps[i]) {}
  }

  /** A re-run that kept the letter keeps the completed letter too. */
  lemma FoundSubstituted(a: Input, b: Input, sev: Severity)
    requires Found(a, b) && GradeMerged(a).letter.Some?
    requires GradeMerged(WithLookupSeverity(a, sev)).letter == GradeMerged(a).letter
    ensures GradeMerged(WithLookupSeverity(b, sev)).letter == GradeMerged(b).letter
  {
    hide RawLetter, GradeMerged, Found, FoundReaches, MapInput;
    var wa, wb := WithLookupSeverity(a, sev), WithLookupSeverity(b, sev);
    FoundMapped(a, b, FailedAs(sev));
    FoundGraded(a, b);
    FoundGraded(wa, wb);
    FoundLetter(a, b, RawLetter(wb));
    FoundLetter(wa, wb, RawLetter(wb));
    FoundLetter(a, b, RawLetter(b));
    FoundLetter(wa, wb, RawLetter(b));
    SameRank(RawLetter(b), RawLetter(wb));
  }

  lemma FoundSameFlags(a: Input, b: Input)
    requires Found(a, b) && HasFailed(b)
    ensures HasFailed(a)
  {
    FoundSameFindings(a, b);
    SameFindingsSameFlags(a, b);
  }

  lemma LettersKept(m: Input, n: Input)
    requires GradeOnceOf(m).letter.Some? && GradeOnceOf(n).letter.Some? && (HasFailed(n) ==> HasFailed(m))
    requires forall sev :: GradeOnceOf(WithLookupSeverity(m, sev)).letter == GradeOnceOf(m).letter ==>
      GradeOnceOf(WithLookupSeverity(n, sev)).letter == GradeOnceOf(n).letter
    requires !LookupMatters(m, GradeOnceOf(m).letter)
    ensures !LookupMatters(n, GradeOnceOf(n).letter)
  {
    hide GradeOnceOf, HasFailed, WithLookupSeverity;
  }

  lemma GivenLetter(a: Input)
    requires GradeOf(a).pending.None?
    ensures GradeOf(a).letter == GradeMerged(MergedInput(a)).letter && GradeOf(a).letter.Some?
    ensures GradeOf(a).archivedUnread == GradeMerged(MergedInput(a)).archivedUnread
    ensures !LookupMatters(MergedInput(a), GradeOnceOf(MergedInput(a)).letter)
  {
    hide GradeOnceOf, GradeMerged, MergedInput, LookupMatters, EstimateMatters;
    FirstRun(a);
    LetterOrPending(a);
  }

  lemma LetterFromRun(b: Input)
    requires GradeMerged(MergedInput(b)).letter.Some? && !LookupMatters(MergedInput(b), GradeOnceOf(MergedInput(b)).letter)
    ensures GradeOf(b).pending.None? && GradeOf(b).letter == GradeMerged(MergedInput(b)).letter
    ensures GradeOf(b).archivedUnread == GradeMerged(MergedInput(b)).archivedUnread
  {
    hide GradeOnceOf, GradeMerged, MergedInput, LookupMatters, EstimateMatters;
    FirstRun(b);
    LetterOrPending(b);
  }

  /** Every completion of the unread flags is given a letter too, and it is the one the rows give it. */
  lemma FoundGrade(a: Input, b: Input)
    requires Found(a, b) && GradeOf(a).pending.None?
    ensures GradeOf(b).pending.None?
    ensures GradeOf(a).letter == Some(RawLetter(MergedInput(a))) && GradeOf(b).letter == Some(RawLetter(MergedInput(b)))
    ensures GradeOf(b).archivedUnread == GradeMerged(MergedInput(b)).archivedUnread
    ensures GradeOf(a).archivedUnread == GradeMerged(MergedInput(a)).archivedUnread
  {
    hide GradeOnceOf, GradeMerged, MergedInput, LookupMatters, GradeOf, RawLetter, Found, FoundReaches, HasFailed, WithLookupSeverity;
    var ma, mb := MergedInput(a), MergedInput(b);
    GivenLetter(a);
    FoundMerged(a, b);
    FoundGraded(ma, mb);
    FirstRun(a);
    FirstRun(b);
    if HasFailed(mb) { FoundSameFlags(ma, mb); }
    forall sev | GradeOnceOf(WithLookupSeverity(ma, sev)).letter == GradeOnceOf(ma).letter
      ensures GradeOnceOf(WithLookupSeverity(mb, sev)).letter == GradeOnceOf(mb).letter
    {
      SubstitutedOnce(a, sev);
      SubstitutedOnce(b, sev);
      FoundSubstituted(ma, mb, sev);
    }
    LettersKept(ma, mb);
    LetterFromRun(b);
  }

  // ---- Which flags matter ----

  lemma InsertNotEmpty(x: string, s: seq<string>)
    ensures Insert(x, s) != []
  {
  }

  lemma {:induction false} UnreadListed(deps: seq<Row>, s: int)
    ensures UnreadNames(deps, s) == [] <==> forall i :: 0 <= i < |deps| ==> !UnreadMatters(deps[i], s)
  {
    hide UnreadMatters;
    if deps != [] {
      var n := |deps| - 1;
      UnreadListed(deps[..n], s);
      assert forall i :: 0 <= i < n ==> deps[..n][i] == deps[i];
    }
  }

  lemma SortListEmpty(s: seq<string>)
    ensures SortList(s) == [] <==> s == []
  {
    if s != [] { InsertNotEmpty(s[0], SortList(s[1..])); }
  }

  lemma ArchivedRowAtLeast(d: Row, l: Letter)
    ensures AtLeast(BandOf(RowScore(AsArchived(d))), l) <==>
      AtLeast(BandOf(RowScore(d)), l) || AtLeast(BandOf(WorstUpkeep(d)), l)
  {
    var e := AsArchived(d);
    assert RowUpkeep(e) == WorstUpkeep(d) && RowUpkeep(d) <= RowUpkeep(e);
    assert RowHighIds(e) == RowHighIds(d);
    assert SomeAlone(e, l) <==> SomeAlone(d, l) by {
      forall f ensures Alone(e, f) == Alone(d, f) {}
      hide Alone;
    }
    hide RowScore, RowUpkeep, RowHighIds, SomeAlone;
    RowAtLeast(e, l);
    RowAtLeast(d, l);
    BandMonotone(RowUpkeep(d), RowUpkeep(e));
  }

  lemma RowBelowLetter(a: Input, d: Row)
    requires d in a.deps
    ensures AtLeast(RawLetter(a), BandOf(RowScore(d)))
  {
    var i :| 0 <= i < |a.deps| && a.deps[i] == d;
    assert RowsOf(a)[i + 1] == d;
    hide RowScore, RawLetter;
    assert d in RowsOf(a);
    assert SomeRow(a, BandOf(RowScore(d)));
    RawIsWorst(a, BandOf(RowScore(d)));
  }

  /** A flag matters exactly when the worst upkeep score of its row is in a worse band than the letter. */
  lemma MattersExactly(a: Input, d: Row)
    requires d in a.deps
    ensures UnreadMatters(d, LetterScore(a)) <==> d.upkeep.archivedUnread && BandOf(WorstUpkeep(d)).WorseThan(RawLetter(a))
  {
    hide LetterScore, RowScore, WorstUpkeep, AsArchived;
    RowBelowLetter(a, d);
    ArchivedRowAtLeast(d, BandOf(RowScore(AsArchived(d))));
    ArchivedRowAtLeast(d, BandOf(WorstUpkeep(d)));
    hide BandOf;
  }

  ghost predicate SomeUnreadMatters(a: Input) {
    exists i :: 0 <= i < |a.deps| && a.deps[i].upkeep.archivedUnread && BandOf(WorstUpkeep(a.deps[i])).WorseThan(RawLetter(a))
  }

  lemma ListedExactly(a: Input)
    requires GradeMerged(a).letter.Some?
    ensures GradeMerged(a).archivedUnread != [] <==> SomeUnreadMatters(a)
  {
    hide LetterScore, PendingOf, RawLetter, RowOrder, DecidingOf, RaisingRule, UnreadMatters;
    UnreadListed(a.deps, LetterScore(a));
    SortListEmpty(UnreadNames(a.deps, LetterScore(a)));
    forall i | 0 <= i < |a.deps|
      ensures UnreadMatters(a.deps[i], LetterScore(a)) <==>
        a.deps[i].upkeep.archivedUnread && BandOf(WorstUpkeep(a.deps[i])).WorseThan(RawLetter(a))
    {
      MattersExactly(a, a.deps[i]);
    }
  }

  lemma {:induction false} NamesAre(deps: seq<Row>, s: int, x: string)
    ensures x in UnreadNames(deps, s) <==> exists d :: d in deps && UnreadMatters(d, s) && d.module_ == x
  {
    hide UnreadMatters;
    if deps != [] {
      var n := |deps| - 1;
      NamesAre(deps[..n], s, x);
      assert deps == deps[..n] + [deps[n]];
    }
  }

  /** The dependency's archived flag was not read, and its worst upkeep score is in a worse band than l. */
  predicate CouldWorsen(d: Row, l: Letter) { d.upkeep.archivedUnread && BandOf(WorstUpkeep(d)).WorseThan(l) }

  lemma NamedIn(m: Input, x: string)
    ensures x in UnreadNames(m.deps, LetterScore(m)) <==> exists d :: d in m.deps && CouldWorsen(d, RawLetter(m)) && d.module_ == x
  {
    NamesAre(m.deps, LetterScore(m), x);
    hide RawLetter, LetterScore, UnreadNames, UnreadMatters, BandOf, WorstUpkeep;
    forall d | d in m.deps ensures UnreadMatters(d, LetterScore(m)) <==> CouldWorsen(d, RawLetter(m)) { MattersExactly(m, d); }
  }

  lemma MergedCouldWorsen(a: Input, l: Letter, x: string)
    ensures (exists d :: d in MergedInput(a).deps && CouldWorsen(d, l) && d.module_ == x) <==>
      exists d :: d in a.deps && CouldWorsen(d, l) && d.module_ == x
  {
    var m := MergedInput(a);
    MergedDepFlags(a);
    hide MergedInput, BandOf, WorstUpkeep;
    if d :| d in a.deps && CouldWorsen(d, l) && d.module_ == x {
      var i :| 0 <= i < |a.deps| && a.deps[i] == d;
      assert m.deps[i] in m.deps;
    }
    if e :| e in m.deps && CouldWorsen(e, l) && e.module_ == x {
      var i :| 0 <= i < |m.deps| && m.deps[i] == e;
      assert a.deps[i] in a.deps;
    }
  }

  /** The list names, in ascending order, exactly the dependencies whose unread flag could worsen the letter. */
  lemma ListIs(a: Input, x: string)
    requires GradeOf(a).pending.None?
    ensures NonDescending(GradeOf(a).archivedUnread) && GradeOf(a).letter.Some?
    ensures x in GradeOf(a).archivedUnread <==> exists d :: d in a.deps && CouldWorsen(d, GradeOf(a).letter.value) && d.module_ == x
  {
    hide *;
    var m := MergedInput(a);
    AllSetIsFound(a);
    FoundGrade(a, a);
    GivenLetter(a);
    ListParts(m);
    SortNonDescending(UnreadNames(m.deps, LetterScore(m)));
    NamedIn(m, x);
    MergedCouldWorsen(a, RawLetter(m), x);
  }

  lemma MergedDepFlags(a: Input)
    ensures |MergedInput(a).deps| == |a.deps|
    ensures forall i :: 0 <= i < |a.deps| ==>
      var d, e := a.deps[i], MergedInput(a).deps[i];
      e.module_ == d.module_ && e.upkeep == d.upkeep && WorstUpkeep(e) == WorstUpkeep(d)
  {
    hide Merged;
  }

  lemma ListParts(m: Input)
    ensures GradeMerged(m).pending.None? ==> GradeMerged(m).archivedUnread == SortList(UnreadNames(m.deps, LetterScore(m)))
    ensures GradeMerged(m).letter.Some? ==> GradeMerged(m).pending.None?
  {
    hide LetterScore, PendingOf, UnreadNames, RowOrder, DecidingOf, RaisingRule, SortList;
  }

  /** Every unread flag of the input set. */
  function AllSet(a: Input): Input {
    a.(deps := seq(|a.deps|, i requires 0 <= i < |a.deps| => if a.deps[i].upkeep.archivedUnread then AsArchived(a.deps[i]) else a.deps[i]))
  }

  lemma AllSetIsFound(a: Input)
    ensures Found(a, AllSet(a)) && Found(a, a)
  {
    forall i | 0 <= i < |a.deps| ensures RowFound(a.deps[i], AllSet(a).deps[i]) {}
  }

  lemma MatteringFlagMoves(a: Input)
    requires SomeUnreadMatters(a)
    ensures RawLetter(AllSet(a)).WorseThan(RawLetter(a))
  {
    hide RawLetter;
    var b := AllSet(a);
    AllSetIsFound(a);
    var i :| 0 <= i < |a.deps| && a.deps[i].upkeep.archivedUnread && BandOf(WorstUpkeep(a.deps[i])).WorseThan(RawLetter(a));
    var d := a.deps[i];
    assert RowsOf(a)[i + 1] == d && d in RowsOf(a);
    RowUpkeepBelow(a, d);
    assert NewlyArchived(d, b.deps[i]);
    assert FoundReaches(a, b, BandOf(WorstUpkeep(a.deps[i])));
    FoundReachesIsReached(a, b, BandOf(WorstUpkeep(a.deps[i])));
  }

  lemma NoFlagNoMove(a: Input, b: Input)
    requires Found(a, b) && !SomeUnreadMatters(a)
    ensures RawLetter(b) == RawLetter(a)
  {
    hide RawLetter;
    FoundLetter(a, b, RawLetter(b));
    if FoundReaches(a, b, RawLetter(b)) {
      var i :| 0 <= i < |a.deps| && NewlyArchived(a.deps[i], b.deps[i]) && AtLeast(BandOf(WorstUpkeep(a.deps[i])), RawLetter(b));
      assert RowFound(a.deps[i], b.deps[i]);
    }
    FoundNoBetter(a, b);
    SameRank(RawLetter(a), RawLetter(b));
  }

  lemma AllSetMerges(a: Input)
    ensures MergedInput(AllSet(a)) == AllSet(MergedInput(a))
  {
    hide Merged;
    assert MergedInput(AllSet(a)).deps == AllSet(MergedInput(a)).deps;
  }

  /** The list is empty exactly when no reading of the unread flags could change the letter. */
  lemma EmptyListExact(a: Input)
    requires GradeOf(a).pending.None?
    ensures GradeOf(a).archivedUnread == [] <==> forall b :: Found(a, b) ==> GradeOf(b).letter == GradeOf(a).letter
  {
    hide GradeOf, GradeMerged, RawLetter, Found, MergedInput, SomeUnreadMatters;
    var m := MergedInput(a);
    AllSetIsFound(a);
    FoundGrade(a, a);
    GivenLetter(a);
    ListedExactly(m);
    if SomeUnreadMatters(m) {
      FoundGrade(a, AllSet(a));
      AllSetMerges(a);
      MatteringFlagMoves(m);
    } else {
      forall b | Found(a, b) ensures GradeOf(b).letter == GradeOf(a).letter {
        FoundGrade(a, b);
        FoundMerged(a, b);
        NoFlagNoMove(m, MergedInput(b));
      }
    }
  }

  /** A dependency's flag is worth at most B. */
  lemma WorstDependencyIsB(d: Row)
    requires !d.isSelf
    ensures AtLeast(LetterB, BandOf(WorstUpkeep(d)))
  {
  }

  lemma ListedMeansA(a: Input)
    requires SelfMarked(a) && SomeUnreadMatters(a)
    ensures RawLetter(a) == LetterA
  {
    hide RawLetter;
    var i :| 0 <= i < |a.deps| && a.deps[i].upkeep.archivedUnread && BandOf(WorstUpkeep(a.deps[i])).WorseThan(RawLetter(a));
    WorstDependencyIsB(a.deps[i]);
  }

  lemma FoundAtMostB(a: Input, b: Input)
    requires SelfMarked(a) && Found(a, b)
    ensures AtLeast(RawLetter(a), RawLetter(b)) || AtLeast(LetterB, RawLetter(b))
  {
    hide RawLetter;
    FoundLetter(a, b, RawLetter(b));
    if FoundReaches(a, b, RawLetter(b)) {
      var i :| 0 <= i < |a.deps| && NewlyArchived(a.deps[i], b.deps[i]) && AtLeast(BandOf(WorstUpkeep(a.deps[i])), RawLetter(b));
      WorstDependencyIsB(a.deps[i]);
    }
  }

  lemma MergedMarked(a: Input)
    requires SelfMarked(a)
    ensures SelfMarked(MergedInput(a))
  {
    hide Merged;
  }

  /** A non-empty list means the letter is A and the worst it could become is exactly B. */
  lemma ListMeansAtWorstB(a: Input)
    requires SelfMarked(a) && GradeOf(a).pending.None? && GradeOf(a).archivedUnread != []
    ensures GradeOf(a).letter == Some(LetterA)
    ensures Found(a, AllSet(a)) && GradeOf(AllSet(a)).letter == Some(LetterB)
    ensures forall b :: Found(a, b) ==> GradeOf(b).letter == Some(LetterA) || GradeOf(b).letter == Some(LetterB)
  {
    hide GradeOf, GradeMerged, RawLetter, Found, MergedInput, SomeUnreadMatters, SelfMarked;
    MergedMarked(a);
    var m := MergedInput(a);
    AllSetIsFound(a);
    GivenLetter(a);
    ListedExactly(m);
    ListedMeansA(m);
    FoundGrade(a, AllSet(a));
    AllSetMerges(a);
    MatteringFlagMoves(m);
    forall b | Found(a, b) ensures GradeOf(b).letter == Some(LetterA) || GradeOf(b).letter == Some(LetterB) {
      FoundGrade(a, b);
      FoundMerged(a, b);
      FoundAtMostB(m, MergedInput(b));
    }
  }
}
