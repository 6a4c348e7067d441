/** The facts store over many re-grades (pkg/runner/regrade_facts.go, pkg/facts/facts.go). Times are instants on one line. */
module Facts {
  import opened GradeTypes

  /** The zero time, which no fact that was read carries. */
  const NO_TIME := 0

  /** What an analysis says of an advisory in one module; Unrated stands for every severity nobody published. */
  datatype Vuln = Vuln(id: string, severity: Severity, source: string, lookupFailed: bool, kevChecked: bool, inKev: bool, kevDate: string)

  /** What the store knows of an advisory, as of fetchedAt. */
  datatype Advisory = Advisory(id: string, severity: Severity, source: string, kevChecked: bool, inKev: bool, kevDate: string, fetchedAt: int)

  type Known = map<string, Advisory>

  predicate Published(s: Severity) { s != Unrated }

  /** facts.Fresh: a fact from after the date is fresh. */
  predicate Fresh(fetchedAt: int, date: int, maxAge: int) { fetchedAt != NO_TIME && date - fetchedAt <= maxAge }

  /** One re-grade's clock: the date of the grade, the time of its analysis, how old an advisory may be. */
  datatype Reader = Reader(date: int, analysed: int, maxAge: int)

  // ---- applyAdvisories ----

  /** The fact is fresh on the grade's date and newer than the analysis. */
  predicate Usable(a: Advisory, r: Reader) { Fresh(a.fetchedAt, r.date, r.maxAge) && a.fetchedAt > r.analysed }

  function Overlay(v: Vuln, a: Advisory): Vuln {
    var w := if Published(a.severity) then v.(severity := a.severity, source := a.source, lookupFailed := false) else v;
    if a.kevChecked then w.(kevChecked := true, inKev := a.inKev, kevDate := a.kevDate) else w
  }

  function Applied(known: Known, v: Vuln, r: Reader, readFails: bool): (w: Vuln)
    ensures w.id == v.id
  {
    if !readFails && v.id in known && Usable(known[v.id], r) then Overlay(v, known[v.id]) else v
  }

  // ---- storeAdvisories ----

  function Learned(v: Vuln, analysed: int): Advisory {
    Advisory(v.id, v.severity, v.source, v.kevChecked, v.inKev, v.kevDate, analysed)
  }

  /** What the analysis could not learn is taken over from the old fact. */
  function Fill(a: Advisory, was: Advisory): Advisory {
    var b := if !Published(a.severity) then a.(severity := was.severity, source := was.source) else a;
    if !b.kevChecked && was.kevChecked then b.(kevChecked := true, inKev := was.inKev, kevDate := was.kevDate) else b
  }

  /** One finding's turn: a failed read is a miss, a failed write leaves the store as it was. */
  function StoreOne(known: Known, v: Vuln, analysed: int, readFails: bool, writeFails: bool): Known {
    if !readFails && v.id in known && known[v.id].fetchedAt >= analysed then known
    else if writeFails then known
    else if !readFails && v.id in known then known[v.id := Fill(Learned(v, analysed), known[v.id])]
    else known[v.id := Learned(v, analysed)]
  }

  predicate SeenBefore(list: seq<Vuln>, n: nat)
    requires n < |list|
  {
    exists i :: 0 <= i < n && list[i].id == list[n].id
  }

  /** The loop: the first finding of each advisory decides. */
  function StoreUpTo(known: Known, list: seq<Vuln>, n: nat, analysed: int, readFails: nat -> bool,
                     writeFails: nat -> bool): Known
    requires n <= |list|
  {
    if n == 0 then known
    else
      var before := StoreUpTo(known, list, n - 1, analysed, readFails, writeFails);
      if SeenBefore(list, n - 1) then before
      else StoreOne(before, list[n - 1], analysed, readFails(n - 1), writeFails(n - 1))
  }

  class Store {
    var known: Known

    constructor ()
      ensures known == map[]
    {
      known := map[];
    }

    /** GetAdvisory: an error is a miss to every caller. */
    method Get(id: string, fails: bool) returns (a: Option<Advisory>)
      ensures a == if !fails && id in known then Some(known[id]) else None
    {
      if !fails && id in known {
        return Some(known[id]);
      }
      return None;
    }

    method Put(a: Advisory, fails: bool)
      modifies this
      ensures known == if fails then old(known) else old(known)[a.id := a]
    {
      if !fails {
        known := known[a.id := a];
      }
    }
  }

  /** applyAdvisories writes the findings in place. */
  method ApplyAdvisories(store: Store, list: array<Vuln>, r: Reader, readFails: nat -> bool)
    modifies list
    ensures forall i :: 0 <= i < list.Length ==> list[i] == Applied(store.known, old(list[i]), r, readFails(i))
  {
    hide Overlay, Usable;
    for i := 0 to list.Length
      invariant forall k :: 0 <= k < list.Length ==>
        list[k] == if k < i then Applied(store.known, old(list[k]), r, readFails(k)) else old(list[k])
    {
      var a := store.Get(list[i].id, readFails(i));
      if a.Some? && Usable(a.value, r) {
        list[i] := Overlay(list[i], a.value);
      }
    }
  }

  /** storeAdvisories, on the findings in the order in which the map yields them. */
  method StoreAdvisories(store: Store, list: seq<Vuln>, analysed: int, readFails: nat -> bool, writeFails: nat -> bool)
    modifies store
    ensures store.known == StoreUpTo(old(store.known), list, |list|, analysed, readFails, writeFails)
  {
    var seen: set<string> := {};
    hide Fill, Learned;
    for i := 0 to |list|
      invariant store.known == StoreUpTo(old(store.known), list, i, analysed, readFails, writeFails)
      invariant forall id :: id in seen <==> exists k :: 0 <= k < i && list[k].id == id
    {
      var v := list[i];
      if v.id in seen {
        continue;
      }
      seen := seen + {v.id};
      assert !SeenBefore(list, i);
      var adv := Learned(v, analysed);
      LearnedId(v, analysed);
      var was := store.Get(v.id, readFails(i));
      if was.Some? {
        if was.value.fetchedAt >= analysed {
          continue;
        }
        FillId(adv, was.value);
        adv := Fill(adv, was.value);
      }
      store.Put(adv, writeFails(i));
    }
  }

  lemma LearnedId(v: Vuln, analysed: int)
    ensures Learned(v, analysed).id == v.id
  {
  }

  lemma FillId(a: Advisory, was: Advisory)
    ensures Fill(a, was).id == a.id
  {
  }

  // ---- Which facts change a finding, and which findings a fact ----

  /** The fact can be read, was fetched after the analysis and is not too old for the grade's date. */
  predicate Overrides(known: Known, v: Vuln, r: Reader, readFails: bool) {
    && !readFails && v.id in known && known[v.id].fetchedAt != 0
    && known[v.id].fetchedAt > r.analysed && r.date - known[v.id].fetchedAt <= r.maxAge
  }

  /** A finding changes only by a fact that overrides it, and then exactly in what that fact knows. */
  lemma AppliedExactly(known: Known, v: Vuln, r: Reader, readFails: bool)
    ensures var w := Applied(known, v, r, readFails);
      if !Overrides(known, v, r, readFails) then w == v
      else
        var a := known[v.id];
        && w.id == v.id
        && (w.severity, w.source, w.lookupFailed) ==
           (if a.severity != Unrated then (a.severity, a.source, false) else (v.severity, v.source, v.lookupFailed))
        && (w.kevChecked, w.inKev, w.kevDate) ==
           (if a.kevChecked then (true, a.inKev, a.kevDate) else (v.kevChecked, v.inKev, v.kevDate))
  {
  }

  /** A store step touches one fact, unless it cannot write or can read a fact that is as new; what the analysis did not
      learn it takes over from a fact it can read. */
  lemma StoredExactly(known: Known, v: Vuln, analysed: int, readFails: bool, writeFails: bool)
    ensures var after, readable := StoreOne(known, v, analysed, readFails, writeFails), !readFails && v.id in known;
      if writeFails || (readable && known[v.id].fetchedAt >= analysed) then after == known
      else
        && after.Keys == known.Keys + {v.id} && (forall id :: id in known && id != v.id ==> after[id] == known[id])
        && after[v.id].id == v.id && after[v.id].fetchedAt == analysed
        && (v.severity != Unrated ==> after[v.id].severity == v.severity && after[v.id].source == v.source)
        && (v.severity == Unrated ==> after[v.id].severity == if readable then known[v.id].severity else Unrated)
        && (v.severity == Unrated && readable ==> after[v.id].source == known[v.id].source)
        && (after[v.id].kevChecked <==> v.kevChecked || (readable && known[v.id].kevChecked))
        && (v.kevChecked ==> after[v.id].inKev == v.inKev && after[v.id].kevDate == v.kevDate)
        && (!v.kevChecked && readable && known[v.id].kevChecked ==>
              after[v.id].inKev == known[v.id].inKev && after[v.id].kevDate == known[v.id].kevDate)
  {
  }

  /** Of several findings of one advisory the first met decides, whichever reads and writes fail: once its turn is over the
      loop leaves its fact alone. */
  lemma {:induction false} FirstFindingDecides(known: Known, list: seq<Vuln>, i: nat, n: nat, analysed: int,
      readFails: nat -> bool, writeFails: nat -> bool)
    requires i < n <= |list|
    ensures var first, after := StoreUpTo(known, list, i + 1, analysed, readFails, writeFails), StoreUpTo(known, list, n, analysed, readFails, writeFails);
      && (list[i].id in after <==> list[i].id in first)
      && (list[i].id in first ==> after[list[i].id] == first[list[i].id])
  {
    if i + 1 < n {
      FirstFindingDecides(known, list, i, n - 1, analysed, readFails, writeFails);
      StoredExactly(StoreUpTo(known, list, n - 1, analysed, readFails, writeFails), list[n - 1], analysed, readFails(n - 1), writeFails(n - 1));
      hide StoreOne;
    }
  }

  // ---- What a step keeps ----

  /** Nothing the store knew is lost: no fact disappears or ages, no published severity becomes unknown, no catalog check is
      forgotten. */
  ghost predicate NothingLost(before: Known, after: Known) {
    forall id :: id in before ==> id in after && NotWorse(before[id], after[id])
  }

  predicate NotWorse(a: Advisory, b: Advisory) {
    b.fetchedAt >= a.fetchedAt && (Published(a.severity) ==> Published(b.severity)) && (a.kevChecked ==> b.kevChecked)
  }

  /** A read that failed hides something the finding does not know itself. */
  predicate Overlooks(known: Known, v: Vuln, analysed: int, readFails: bool, writeFails: bool) {
    && readFails && !writeFails && v.id in known
    && (known[v.id].fetchedAt > analysed
        || (Published(known[v.id].severity) && !Published(v.severity))
        || (known[v.id].kevChecked && !v.kevChecked))
  }

  /** A store step loses something exactly when its read failed on a fact that is newer or knows more. */
  lemma LosesOnlyWhatItCannotRead(known: Known, v: Vuln, analysed: int, readFails: bool, writeFails: bool)
    ensures NothingLost(known, StoreOne(known, v, analysed, readFails, writeFails)) <==> !Overlooks(known, v, analysed, readFails, writeFails)
  {
    if Overlooks(known, v, analysed, readFails, writeFails) {
      assert !NotWorse(known[v.id], StoreOne(known, v, analysed, readFails, writeFails)[v.id]);
    }
  }

  /** The failing family in one instance: a read error lets an older analysis that knows nothing overwrite a newer fact. */
  lemma ReadErrorOverwrites()
    ensures
      var a := Advisory("GO-2026-0001", Critical, "nvd", true, true, "2026-01-02", 20);
      var v := Vuln("GO-2026-0001", Unrated, "", true, false, false, "");
      StoreOne(map["GO-2026-0001" := a], v, 10, true, false)["GO-2026-0001"] ==
        Advisory("GO-2026-0001", Unrated, "", false, false, "", 10)
  {
  }

  lemma NothingLostTransitive(a: Known, b: Known, c: Known)
    requires NothingLost(a, b) && NothingLost(b, c)
    ensures NothingLost(a, c)
  {
  }

  // ---- Many re-grades ----

  /** One re-grade: the findings as the analysis left them, in the order met, and which of its reads and writes fail. */
  datatype Regrade = Regrade(reader: Reader, list: seq<Vuln>, applyFails: nat -> bool, readFails: nat -> bool, writeFails: nat -> bool)

  function ApplyAll(known: Known, g: Regrade): (list: seq<Vuln>)
    ensures |list| == |g.list|
    ensures forall i :: 0 <= i < |list| ==> list[i] == Applied(known, g.list[i], g.reader, g.applyFails(i))
  {
    seq(|g.list|, i requires 0 <= i < |g.list| => Applied(known, g.list[i], g.reader, g.applyFails(i)))
  }

  /** Apply, then store what the findings say now. */
  function StepStore(known: Known, g: Regrade): Known {
    StoreUpTo(known, ApplyAll(known, g), |g.list|, g.reader.analysed, g.readFails, g.writeFails)
  }

  function AfterAll(known: Known, gs: seq<Regrade>): Known {
    if gs == [] then known else StepStore(AfterAll(known, gs[..|gs| - 1]), gs[|gs| - 1])
  }

  ghost predicate ReadsSucceed(g: Regrade) { forall i :: 0 <= i < |g.list| ==> !g.readFails(i) }

  lemma {:induction false} StoreLosesNothing(known: Known, list: seq<Vuln>, n: nat, analysed: int,
      readFails: nat -> bool, writeFails: nat -> bool)
    requires n <= |list| && forall i :: 0 <= i < n ==> !readFails(i)
    ensures NothingLost(known, StoreUpTo(known, list, n, analysed, readFails, writeFails))
  {
    hide StoreOne, NothingLost;
    if n == 0 {
      NothingToLose(known);
    } else {
      StoreLosesNothing(known, list, n - 1, analysed, readFails, writeFails);
      var before := StoreUpTo(known, list, n - 1, analysed, readFails, writeFails);
      LosesOnlyWhatItCannotRead(before, list[n - 1], analysed, readFails(n - 1), writeFails(n - 1));
      NothingLostTransitive(known, before, StoreOne(before, list[n - 1], analysed, readFails(n - 1), writeFails(n - 1)));
    }
  }

  lemma NothingToLose(known: Known)
    ensures NothingLost(known, known)
  {
  }

  /** Over any sequence of re-grades, of analyses in any order of time, whichever writes fail: each fact's date never goes
      back, a published severity never becomes unknown and a catalog check is never undone. */
  lemma {:induction false} NothingLostEver(known: Known, gs: seq<Regrade>, i: nat, j: nat)
    requires i <= j <= |gs| && forall g :: g in gs ==> ReadsSucceed(g)
    ensures NothingLost(AfterAll(known, gs[..i]), AfterAll(known, gs[..j]))
  {
    hide NothingLost, StepStore;
    if i == j {
      NothingToLose(AfterAll(known, gs[..i]));
    } else {
      NothingLostEver(known, gs, i, j - 1);
      assert gs[..j][..j - 1] == gs[..j - 1] && gs[..j][j - 1] == gs[j - 1];
      assert gs[j - 1] in gs;
      StepLosesNothing(AfterAll(known, gs[..j - 1]), gs[j - 1]);
      NothingLostTransitive(AfterAll(known, gs[..i]), AfterAll(known, gs[..j - 1]), AfterAll(known, gs[..j]));
    }
  }

  lemma {:induction false} StepLosesNothing(known: Known, g: Regrade)
    requires ReadsSucceed(g)
    ensures NothingLost(known, StepStore(known, g))
  {
    hide StoreUpTo, NothingLost;
    StoreLosesNothing(known, ApplyAll(known, g), |g.list|, g.reader.analysed, g.readFails, g.writeFails);
  }

  /** A fact dated at or after the analysis stands as it is, and so does one the analysis does not mention. */
  lemma {:induction false} NewerFactsStand(known: Known, list: seq<Vuln>, n: nat, analysed: int,
      readFails: nat -> bool, writeFails: nat -> bool, id: string)
    requires n <= |list| && id in known
    requires (forall i :: 0 <= i < n && list[i].id == id ==> !readFails(i) && known[id].fetchedAt >= analysed)
    ensures id in StoreUpTo(known, list, n, analysed, readFails, writeFails)
    ensures StoreUpTo(known, list, n, analysed, readFails, writeFails)[id] == known[id]
  {
    hide Fill, Learned;
    if n > 0 { NewerFactsStand(known, list, n - 1, analysed, readFails, writeFails, id); }
  }

  /** The date of a fact once every read and write succeeds: the latest analysis that mentions the advisory. */
  function LatestOf(start: Option<int>, gs: seq<Regrade>, id: string): Option<int> {
    if gs == [] then start
    else
      var before, g := LatestOf(start, gs[..|gs| - 1], id), gs[|gs| - 1];
      if !Mentions(g.list, id) then before
      else if before.Some? && before.value >= g.reader.analysed then before
      else Some(g.reader.analysed)
  }

  predicate Mentions(list: seq<Vuln>, id: string) { exists i :: 0 <= i < |list| && list[i].id == id }

  function DateOf(known: Known, id: string): Option<int> { if id in known then Some(known[id].fetchedAt) else None }

  ghost predicate AllSucceeds(g: Regrade) { forall i :: 0 <= i < |g.list| ==> !g.readFails(i) && !g.writeFails(i) }

  predicate MentionsBy(list: seq<Vuln>, n: nat, id: string)
    requires n <= |list|
  {
    exists i :: 0 <= i < n && list[i].id == id
  }

  lemma {:induction false} StoreDates(known: Known, list: seq<Vuln>, n: nat, analysed: int, readFails: nat -> bool,
                                      writeFails: nat -> bool, id: string)
    requires n <= |list| && forall i :: 0 <= i < n ==> !readFails(i) && !writeFails(i)
    ensures DateOf(StoreUpTo(known, list, n, analysed, readFails, writeFails), id) ==
      if MentionsBy(list, n, id) && !(id in known && known[id].fetchedAt >= analysed) then Some(analysed) else DateOf(known, id)
  {
    if n > 0 {
      StoreDates(known, list, n - 1, analysed, readFails, writeFails, id);
      OneDate(StoreUpTo(known, list, n - 1, analysed, readFails, writeFails), list[n - 1], analysed, id);
      hide StoreOne;
      assert MentionsBy(list, n, id) <==> MentionsBy(list, n - 1, id) || list[n - 1].id == id;
    }
  }

  lemma OneDate(known: Known, v: Vuln, analysed: int, id: string)
    ensures DateOf(StoreOne(known, v, analysed, false, false), id) ==
      if v.id == id && !(id in known && known[id].fetchedAt >= analysed) then Some(analysed) else DateOf(known, id)
  {
  }

  lemma AppliedKeepsIds(known: Known, g: Regrade, id: string)
    ensures MentionsBy(ApplyAll(known, g), |g.list|, id) <==> Mentions(g.list, id)
  {
    var l := ApplyAll(known, g);
    if i :| 0 <= i < |g.list| && g.list[i].id == id { assert l[i].id == id; }
  }

  /** However the re-grades are ordered, each fact ends dated by the latest analysis that mentions it. */
  lemma {:induction false} DatedByTheLatest(known: Known, gs: seq<Regrade>, id: string)
    requires forall g :: g in gs ==> AllSucceeds(g)
    ensures DateOf(AfterAll(known, gs), id) == LatestOf(DateOf(known, id), gs, id)
  {
    if gs != [] {
      var init, g := gs[..|gs| - 1], gs[|gs| - 1];
      assert gs == init + [g];
      DatedByTheLatest(known, init, id);
      var before := AfterAll(known, init);
      hide StoreUpTo;
      assert g in gs;
      StoreDates(before, ApplyAll(before, g), |g.list|, g.reader.analysed, g.readFails, g.writeFails, id);
      AppliedKeepsIds(before, g, id);
      hide ApplyAll, Mentions, MentionsBy;
    }
  }

  // ---- What a re-grade reads back ----

  /** Applying facts never makes a finding less certain, and applying them again changes nothing. */
  lemma ApplyOnlyAdds(known: Known, v: Vuln, r: Reader, readFails: bool)
    ensures var w := Applied(known, v, r, readFails);
      && w.id == v.id && (Published(v.severity) ==> Published(w.severity)) && (v.kevChecked ==> w.kevChecked)
      && (Published(w.severity) && !Published(v.severity) ==> !w.lookupFailed)
      && Applied(known, w, r, readFails) == w
  {
  }

  /** What a later analysis learned reaches a re-grade of an earlier one, while it is fresh: its severity when it published
      one, its catalog check when it made one; what it did not learn itself it had kept from the store. */
  lemma LaterAnalysisIsReadBack(known: Known, later: Vuln, analysed: int, v: Vuln, r: Reader)
    requires later.id == v.id && analysed > r.analysed && Fresh(analysed, r.date, r.maxAge)
    requires !(later.id in known && known[later.id].fetchedAt >= analysed)
    ensures var w := Applied(StoreOne(known, later, analysed, false, false), v, r, false);
      && w.severity == (if Published(later.severity) then later.severity
                        else if v.id in known && Published(known[v.id].severity) then known[v.id].severity else v.severity)
      && w.kevChecked == (later.kevChecked || (v.id in known && known[v.id].kevChecked) || v.kevChecked)
      && (later.kevChecked ==> w.inKev == later.inKev && w.kevDate == later.kevDate)
      && (Published(later.severity) ==> w.source == later.source && !w.lookupFailed)
  {
  }
}
