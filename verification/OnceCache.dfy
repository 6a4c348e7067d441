/** The single-flight cache (pkg/scanner/maintainer.go): onceCache's do, peek and set, interleaved by any number of callers. */
module OnceCache {
  import opened GradeTypes

  type Caller = nat

  /** What fn returned: a value, and whether it came with an error. */
  datatype Answer = Answer(val: int, failed: bool)

  /** An onceEntry: answer is val and err once they are written; closed is the done channel. */
  datatype Entry = Entry(key: string, answer: Option<Answer>, closed: bool, preset: bool)

  /** Where a caller stands; `at` is the index of its entry. */
  datatype Place =
    | Outside
    | Waiting(key: string, at: nat)
    | Created(key: string, at: nat)
    | Calling(key: string, at: nat)
    | Stored(key: string, at: nat)
    | Deleting(key: string, at: nat)
    | Closing(key: string, at: nat)
    | Peeking(key: string, at: nat)
    | Returned(key: string, at: nat, answer: Answer)
    | PeekedNothing(key: string)

  /** The cache's map and its entries, and every caller's place. */
  datatype State = State(m: map<string, nat>, entries: seq<Entry>, place: map<Caller, Place>)

  /** One atomic step; the ones that hold the mutex are Enter, Delete, PeekLock and Set. */
  datatype Action =
    | Enter(caller: Caller, key: string)
    | CallFn(caller: Caller)
    | FnReturns(caller: Caller, answer: Answer)
    | CheckContext(caller: Caller, cancelled: bool)
    | Delete(caller: Caller)
    | Close(caller: Caller)
    | Wake(caller: Caller)
    | PeekLock(caller: Caller, key: string)
    | PeekSelect(caller: Caller)
    | Set(key: string, val: int)

  function PlaceOf(s: State, t: Caller): Place { if t in s.place then s.place[t] else Outside }

  predicate Free(p: Place) { p.Outside? || p.Returned? || p.PeekedNothing? }

  /** The caller made this entry and has not closed it yet. */
  predicate Owns(p: Place, e: nat) {
    (p.Created? || p.Calling? || p.Stored? || p.Deleting? || p.Closing?) && p.at == e
  }

  /** The owner has not passed the point where its entry may leave the map. */
  predicate Holds(p: Place) { p.Created? || p.Calling? || p.Stored? || p.Deleting? }

  predicate InRange(s: State, p: Place) { !p.Outside? && !p.PeekedNothing? ==> p.at < |s.entries| }

  predicate Enabled(s: State, a: Action) {
    match a
    case Enter(t, _) => Free(PlaceOf(s, t))
    case CallFn(t) => PlaceOf(s, t).Created?
    case FnReturns(t, _) => PlaceOf(s, t).Calling? && InRange(s, PlaceOf(s, t))
    case CheckContext(t, _) =>
      PlaceOf(s, t).Stored? && InRange(s, PlaceOf(s, t)) && s.entries[PlaceOf(s, t).at].answer.Some?
    case Delete(t) => PlaceOf(s, t).Deleting?
    case Close(t) => PlaceOf(s, t).Closing? && InRange(s, PlaceOf(s, t)) && s.entries[PlaceOf(s, t).at].answer.Some?
    case Wake(t) =>
      // <-e.done blocks until the channel is closed
      && PlaceOf(s, t).Waiting? && InRange(s, PlaceOf(s, t))
      && s.entries[PlaceOf(s, t).at].closed && s.entries[PlaceOf(s, t).at].answer.Some?
    case PeekLock(t, _) => Free(PlaceOf(s, t))
    case PeekSelect(t) =>
      && PlaceOf(s, t).Peeking? && InRange(s, PlaceOf(s, t))
      && (s.entries[PlaceOf(s, t).at].closed ==> s.entries[PlaceOf(s, t).at].answer.Some?)
    case Set(_, _) => true
  }

  function Move(s: State, t: Caller, p: Place): State { s.(place := s.place[t := p]) }

  /** The state after the step. */
  function Apply(s: State, a: Action): State
    requires Enabled(s, a)
  {
    match a
    case Enter(t, key) =>
      if key in s.m then Move(s, t, Waiting(key, s.m[key]))
      else Move(s.(m := s.m[key := |s.entries|], entries := s.entries + [Entry(key, None, false, false)]), t, Created(key, |s.entries|))
    case CallFn(t) => Move(s, t, Calling(PlaceOf(s, t).key, PlaceOf(s, t).at))
    case FnReturns(t, answer) =>
      var p := PlaceOf(s, t);
      Move(s.(entries := s.entries[p.at := s.entries[p.at].(answer := Some(answer))]), t, Stored(p.key, p.at))
    case CheckContext(t, cancelled) =>
      var p := PlaceOf(s, t);
      if s.entries[p.at].answer.value.failed && cancelled then Move(s, t, Deleting(p.key, p.at)) else Move(s, t, Closing(p.key, p.at))
    case Delete(t) =>
      var p := PlaceOf(s, t);
      Move(s.(m := s.m - {p.key}), t, Closing(p.key, p.at))
    case Close(t) =>
      var p := PlaceOf(s, t);
      Move(s.(entries := s.entries[p.at := s.entries[p.at].(closed := true)]), t, Returned(p.key, p.at, s.entries[p.at].answer.value))
    case Wake(t) =>
      var p := PlaceOf(s, t);
      Move(s, t, Returned(p.key, p.at, s.entries[p.at].answer.value))
    case PeekLock(t, key) =>
      if key in s.m then Move(s, t, Peeking(key, s.m[key])) else Move(s, t, PeekedNothing(key))
    case PeekSelect(t) =>
      var p := PlaceOf(s, t);
      if s.entries[p.at].closed then Move(s, t, Returned(p.key, p.at, s.entries[p.at].answer.value))
      else Move(s, t, PeekedNothing(p.key))
    case Set(key, val) =>
      if key in s.m then s
      else s.(m := s.m[key := |s.entries|], entries := s.entries + [Entry(key, Some(Answer(val, false)), true, true)])
  }

  const START := State(map[], [], map[])

  /** The states a run goes through, one step at a time. */
  ghost predicate Run(states: seq<State>, actions: seq<Action>) {
    && |states| == |actions| + 1 && states[0] == START
    && forall i :: 0 <= i < |actions| ==> Enabled(states[i], actions[i]) && states[i + 1] == Apply(states[i], actions[i])
  }

  // ---- The cache as an object: one method for each atomic section of the source ----

  class Cache {
    var m: map<string, nat>
    var entries: seq<Entry>
    var place: map<Caller, Place>

    function Now(): State
      reads this
    {
      State(m, entries, place)
    }

    /** What holds between any two steps, and so whenever a caller looks. */
    ghost predicate Valid()
      reads this
    {
      Inv(Now())
    }

    constructor ()
      ensures Valid() && Now() == START
    {
      m, entries, place := map[], [], map[];
    }

    /** do, up to the first unlock: join the entry, or make one. */
    method EnterDo(t: Caller, key: string)
      requires Valid() && Enabled(Now(), Enter(t, key))
      modifies this
      ensures Valid() && Now() == Apply(old(Now()), Enter(t, key))
    {
      StepKeepsInv(Now(), Enter(t, key));
      if key in m {
        place := place[t := Waiting(key, m[key])];
        return;
      }
      var e := |entries|;
      entries := entries + [Entry(key, None, false, false)];
      m := m[key := e];
      place := place[t := Created(key, e)];
    }

    /** The owner of a new entry calls fn. */
    method BeginFn(t: Caller)
      requires Valid() && Enabled(Now(), CallFn(t))
      modifies this`place
      ensures Valid() && Now() == Apply(old(Now()), CallFn(t))
      // nobody else is running fn for this key
      ensures forall u :: u in place && place[u].Calling? && place[u].key == place[t].key ==> u == t
    {
      StepKeepsInv(Now(), CallFn(t));
      place := place[t := Calling(place[t].key, place[t].at)];
    }

    method StoreAnswer(t: Caller, answer: Answer)
      requires Valid() && Enabled(Now(), FnReturns(t, answer))
      modifies this
      ensures Valid() && Now() == Apply(old(Now()), FnReturns(t, answer))
      // an answer is written once
      ensures old(entries)[old(place)[t].at].answer == None
    {
      StepKeepsInv(Now(), FnReturns(t, answer));
      var e := place[t].at;
      entries := entries[e := entries[e].(answer := Some(answer))];
      place := place[t := Stored(place[t].key, e)];
    }

    /** The test after fn: a failure while the context was cancelled is not kept. */
    method TestContext(t: Caller, cancelled: bool)
      requires Valid() && Enabled(Now(), CheckContext(t, cancelled))
      modifies this`place
      ensures Valid() && Now() == Apply(old(Now()), CheckContext(t, cancelled))
    {
      StepKeepsInv(Now(), CheckContext(t, cancelled));
      var e := place[t].at;
      if entries[e].answer.value.failed && cancelled {
        place := place[t := Deleting(place[t].key, e)];
      } else {
        place := place[t := Closing(place[t].key, e)];
      }
    }

    method DeleteKey(t: Caller)
      requires Valid() && Enabled(Now(), Delete(t))
      modifies this
      ensures Valid() && Now() == Apply(old(Now()), Delete(t))
      // what it deletes is its own failed entry
      ensures var p := old(place)[t]; p.key in old(m) && old(m)[p.key] == p.at && entries[p.at].answer.value.failed
    {
      StepKeepsInv(Now(), Delete(t));
      m := m - {place[t].key};
      place := place[t := Closing(place[t].key, place[t].at)];
    }

    method CloseDone(t: Caller)
      requires Valid() && Enabled(Now(), Close(t))
      modifies this
      ensures Valid() && Now() == Apply(old(Now()), Close(t))
      // a channel is never closed twice
      ensures !old(entries)[old(place)[t].at].closed && m == old(m)
    {
      StepKeepsInv(Now(), Close(t));
      var e := place[t].at;
      entries := entries[e := entries[e].(closed := true)];
      place := place[t := Returned(place[t].key, e, entries[e].answer.value)];
    }

    method WakeUp(t: Caller)
      requires Valid() && Enabled(Now(), Wake(t))
      modifies this`place
      ensures Valid() && Now() == Apply(old(Now()), Wake(t))
    {
      StepKeepsInv(Now(), Wake(t));
      var e := place[t].at;
      place := place[t := Returned(place[t].key, e, entries[e].answer.value)];
    }

    method LockPeek(t: Caller, key: string)
      requires Valid() && Enabled(Now(), PeekLock(t, key))
      modifies this`place
      ensures Valid() && Now() == Apply(old(Now()), PeekLock(t, key))
    {
      StepKeepsInv(Now(), PeekLock(t, key));
      if key in m {
        place := place[t := Peeking(key, m[key])];
      } else {
        place := place[t := PeekedNothing(key)];
      }
    }

    method SelectPeek(t: Caller)
      requires Valid() && Enabled(Now(), PeekSelect(t))
      modifies this`place
      ensures Valid() && Now() == Apply(old(Now()), PeekSelect(t))
    {
      StepKeepsInv(Now(), PeekSelect(t));
      var e := place[t].at;
      if entries[e].closed {
        place := place[t := Returned(place[t].key, e, entries[e].answer.value)];
      } else {
        place := place[t := PeekedNothing(place[t].key)];
      }
    }

    method SetKey(key: string, val: int)
      requires Valid() && Enabled(Now(), Set(key, val))
      modifies this`m, this`entries
      ensures Valid() && Now() == Apply(old(Now()), Set(key, val))
    {
      StepKeepsInv(Now(), Set(key, val));
      if key in m {
        return;
      }
      m := m[key := |entries|];
      entries := entries + [Entry(key, Some(Answer(val, false)), true, true)];
    }
  }

  // ---- What every step keeps ----

  /** A place names an entry of its own key; until its owner deletes it or goes on to close it, that entry is the one in
      the map; and its answer is there exactly once fn has returned. */
  predicate PlaceOk(m: map<string, nat>, entries: seq<Entry>, p: Place) {
    p.Outside? || p.PeekedNothing?
    || (&& p.at < |entries| && entries[p.at].key == p.key
        && (Holds(p) ==> p.key in m && m[p.key] == p.at)
        && (Owns(p, p.at) ==> !entries[p.at].closed)
        && (p.Created? || p.Calling? ==> entries[p.at].answer == None)
        && (p.Stored? || p.Deleting? || p.Closing? ==> entries[p.at].answer.Some?)
        && (p.Deleting? ==> entries[p.at].answer.value.failed)
        && (p.Returned? ==> entries[p.at].closed && entries[p.at].answer == Some(p.answer)))
  }

  /** A closed entry has its answer, and one that left the map ended in a failure of fn. */
  predicate EntryOk(m: map<string, nat>, entries: seq<Entry>, e: nat)
    requires e < |entries|
  {
    && (entries[e].closed ==> entries[e].answer.Some?)
    && (entries[e].preset ==> entries[e].closed)
    && (!(entries[e].key in m && m[entries[e].key] == e) ==>
          entries[e].answer.Some? && entries[e].answer.value.failed && !entries[e].preset)
  }

  ghost predicate HasOwner(s: State, e: nat) { exists t :: t in s.place && Owns(s.place[t], e) }

  /** An open entry has exactly one owner. */
  ghost predicate OwnersOk(s: State) {
    && (forall e :: 0 <= e < |s.entries| && !s.entries[e].closed ==> HasOwner(s, e))
    && (forall t, u, e: nat :: t in s.place && u in s.place && Owns(s.place[t], e) && Owns(s.place[u], e) ==> t == u)
  }

  ghost predicate Inv(s: State) {
    && (forall k :: k in s.m ==> s.m[k] < |s.entries| && s.entries[s.m[k]].key == k)
    && (forall t :: t in s.place ==> PlaceOk(s.m, s.entries, s.place[t]))
    && (forall e :: 0 <= e < |s.entries| ==> EntryOk(s.m, s.entries, e))
    && OwnersOk(s)
  }

  lemma PlaceOkOf(s: State, t: Caller)
    requires Inv(s)
    ensures PlaceOk(s.m, s.entries, PlaceOf(s, t))
  {
  }

  /** A caller keeps owning its entry until it closes it. */
  lemma OwnersKept(s: State, r: State, t: Caller, p: Place)
    requires OwnersOk(s) && r.place == s.place[t := p] && |r.entries| == |s.entries|
    requires forall e: nat :: Owns(p, e) ==> Owns(PlaceOf(s, t), e)
    requires forall e :: 0 <= e < |s.entries| && !r.entries[e].closed ==>
      !s.entries[e].closed && (Owns(PlaceOf(s, t), e) ==> Owns(p, e))
    ensures OwnersOk(r)
  {
    hide Owns;
    NobodyOutside();
    forall e | 0 <= e < |r.entries| && !r.entries[e].closed ensures HasOwner(r, e) {
      assert HasOwner(s, e);
      var u :| u in s.place && Owns(s.place[u], e);
      assert u in r.place && Owns(r.place[u], e);
    }
  }

  lemma NobodyOutside()
    ensures forall e: nat :: !Owns(Outside, e)
  {
  }

  /** A step that moves one caller and keeps what it owns. */
  lemma Moved(s: State, t: Caller, p: Place)
    requires Inv(s) && PlaceOk(s.m, s.entries, p)
    requires forall e: nat :: Owns(p, e) <==> Owns(PlaceOf(s, t), e)
    ensures Inv(Move(s, t, p))
  {
    hide PlaceOk, EntryOk, Owns, OwnersOk;
    OwnersKept(s, Move(s, t, p), t, p);
  }

  /** A new entry, open and owned by t, or closed from the start. */
  lemma Added(s: State, entry: Entry, r: State, t: Caller)
    requires Inv(s) && entry.key !in s.m && (entry.preset ==> entry.closed)
    requires r.m == s.m[entry.key := |s.entries|] && r.entries == s.entries + [entry]
    requires if entry.closed then entry.answer.Some? && r.place == s.place
      else Free(PlaceOf(s, t)) && entry.answer == None && r.place == s.place[t := Created(entry.key, |s.entries|)]
    ensures Inv(r)
  {
    NewPlace(s, entry, r);
    forall e | 0 <= e < |r.entries| ensures EntryOk(r.m, r.entries, e) {
      if e < |s.entries| { assert EntryOk(s.m, s.entries, e); }
    }
    NewOwner(s, entry, r, t);
    hide PlaceOk, EntryOk, OwnersOk;
    forall u | u in r.place ensures PlaceOk(r.m, r.entries, r.place[u]) {
      if u in s.place { assert PlaceOk(s.m, s.entries, s.place[u]); }
    }
  }

  lemma NewPlace(s: State, entry: Entry, r: State)
    requires entry.key !in s.m && r.m == s.m[entry.key := |s.entries|] && r.entries == s.entries + [entry]
    ensures forall p :: PlaceOk(s.m, s.entries, p) ==> PlaceOk(r.m, r.entries, p)
    ensures !entry.closed && entry.answer == None ==> PlaceOk(r.m, r.entries, Created(entry.key, |s.entries|))
  {
  }

  lemma NewOwner(s: State, entry: Entry, r: State, t: Caller)
    requires Inv(s) && r.entries == s.entries + [entry]
    requires if entry.closed then r.place == s.place
      else Free(PlaceOf(s, t)) && r.place == s.place[t := Created(entry.key, |s.entries|)]
    ensures OwnersOk(r)
  {
    forall e | 0 <= e < |r.entries| && !r.entries[e].closed ensures HasOwner(r, e) {
      if e < |s.entries| {
        assert HasOwner(s, e);
        var u :| u in s.place && Owns(s.place[u], e);
        assert u in r.place && Owns(r.place[u], e);
      } else {
        assert Owns(r.place[t], e);
      }
    }
    forall u, v, e: nat | u in r.place && v in r.place && Owns(r.place[u], e) && Owns(r.place[v], e) ensures u == v {
      if u in s.place { assert PlaceOk(s.m, s.entries, s.place[u]); }
      if v in s.place { assert PlaceOk(s.m, s.entries, s.place[v]); }
    }
  }

  /** The owner t writes fn's answer into its entry, or closes it, and moves on. */
  lemma Written(s: State, t: Caller, e: nat, entry: Entry, p: Place)
    requires Inv(s) && t in s.place && e < |s.entries| && Owns(s.place[t], e)
    requires entry == s.entries[e].(answer := entry.answer, closed := entry.closed) && entry.answer.Some?
    requires entry.answer == s.entries[e].answer || (s.entries[e].answer == None && Holds(s.place[t]))
    requires PlaceOk(s.m, s.entries[e := entry], p) && if entry.closed then p.Returned? else Owns(p, e)
    ensures Inv(Move(s.(entries := s.entries[e := entry]), t, p))
  {
    var r := Move(s.(entries := s.entries[e := entry]), t, p);
    OpenEntry(s, t, e);
    OwnsOnly(s.place[t], e);
    OwnsOnly(p, e);
    OwnersKept(s, r, t, p);
    hide PlaceOk, OwnersOk, Owns;
    forall u | u in r.place ensures PlaceOk(r.m, r.entries, r.place[u]) {
      if u != t {
        OthersApart(s, t, e, u);
        OtherPlace(s.m, s.entries, e, entry, s.place[u]);
      }
    }
    forall d | 0 <= d < |r.entries| ensures EntryOk(r.m, r.entries, d) {
      assert EntryOk(s.m, s.entries, d);
    }
  }

  lemma OwnsOnly(p: Place, e: nat)
    ensures forall d: nat :: Owns(p, d) && Owns(p, e) ==> d == e
    ensures p.Returned? ==> forall d: nat :: !Owns(p, d)
  {
  }

  lemma OpenEntry(s: State, t: Caller, e: nat)
    requires Inv(s) && t in s.place && e < |s.entries| && Owns(s.place[t], e)
    ensures !s.entries[e].closed && s.entries[e].key == s.place[t].key
    ensures Holds(s.place[t]) ==> s.entries[e].key in s.m && s.m[s.entries[e].key] == e
  {
    assert PlaceOk(s.m, s.entries, s.place[t]);
  }

  lemma OtherPlace(m: map<string, nat>, entries: seq<Entry>, e: nat, entry: Entry, p: Place)
    requires e < |entries| && entry.key == entries[e].key && PlaceOk(m, entries, p)
    requires !p.Outside? && !p.PeekedNothing? && p.at == e ==> p.Waiting? || p.Peeking?
    ensures PlaceOk(m, entries[e := entry], p)
  {
  }

  /** Another caller at the same open entry only waits or peeks. */
  lemma OthersApart(s: State, t: Caller, e: nat, u: Caller)
    requires Inv(s) && t in s.place && u in s.place && t != u && e < |s.entries| && Owns(s.place[t], e)
    ensures PlaceOk(s.m, s.entries, s.place[u])
    ensures !s.place[u].Outside? && !s.place[u].PeekedNothing? && s.place[u].at == e ==> s.place[u].Waiting? || s.place[u].Peeking?
  {
    OpenEntry(s, t, e);
  }

  lemma DeletedEntry(m: map<string, nat>, entries: seq<Entry>, key: string, e: nat, d: nat)
    requires e < |entries| && d < |entries| && key in m && m[key] == e && EntryOk(m, entries, d) && EntryOk(m, entries, e)
    requires entries[e].key == key && !entries[e].closed && entries[e].answer.Some? && entries[e].answer.value.failed
    ensures EntryOk(m - {key}, entries, d)
  {
  }

  lemma DeletedPlace(m: map<string, nat>, entries: seq<Entry>, key: string, e: nat, p: Place)
    requires e < |entries| && key in m && m[key] == e && entries[e].key == key && PlaceOk(m, entries, p)
    requires Holds(p) ==> p.at != e
    ensures PlaceOk(m - {key}, entries, p)
  {
  }

  lemma Deleted(s: State, t: Caller)
    requires Inv(s) && Enabled(s, Delete(t))
    ensures Inv(Apply(s, Delete(t)))
  {
    var p := PlaceOf(s, t);
    var r := Apply(s, Delete(t));
    PlaceOkOf(s, t);
    OwnersKept(s, r, t, Closing(p.key, p.at));
    assert Owns(s.place[t], p.at);
    OpenEntry(s, t, p.at);
    hide OwnersOk, EntryOk, PlaceOk, Owns;
    forall e | 0 <= e < |r.entries| ensures EntryOk(r.m, r.entries, e) {
      DeletedEntry(s.m, s.entries, p.key, p.at, e);
    }
    forall u | u in r.place && u != t ensures PlaceOk(r.m, r.entries, r.place[u]) {
      OthersApart(s, t, p.at, u);
      DeletedPlace(s.m, s.entries, p.key, p.at, s.place[u]);
    }
    ClosesOk(r.m, s.entries, p);
  }

  lemma ClosesOk(m: map<string, nat>, entries: seq<Entry>, p: Place)
    requires p.Deleting? && p.at < |entries| && entries[p.at].key == p.key && !entries[p.at].closed && entries[p.at].answer.Some?
    ensures PlaceOk(m, entries, Closing(p.key, p.at))
  {
  }

  lemma EntryInMap(s: State, key: string)
    requires Inv(s) && key in s.m
    ensures PlaceOk(s.m, s.entries, Waiting(key, s.m[key])) && PlaceOk(s.m, s.entries, Peeking(key, s.m[key]))
  {
  }

  lemma StepKeepsInv(s: State, a: Action)
    requires Inv(s) && Enabled(s, a)
    ensures Inv(Apply(s, a))
  {
    hide Inv;
    match a
    case Enter(t, key) =>
      if key in s.m {
        EntryInMap(s, key);
        Moved(s, t, Waiting(key, s.m[key]));
      } else {
        Added(s, Entry(key, None, false, false), Apply(s, a), t);
      }
    case CallFn(t) => PlaceOkOf(s, t); Moved(s, t, Calling(PlaceOf(s, t).key, PlaceOf(s, t).at));
    case FnReturns(t, answer) =>
      PlaceOkOf(s, t);
      var p := PlaceOf(s, t);
      Written(s, t, p.at, s.entries[p.at].(answer := Some(answer)), Stored(p.key, p.at));
    case CheckContext(t, cancelled) =>
      PlaceOkOf(s, t);
      var p := PlaceOf(s, t);
      Moved(s, t, if s.entries[p.at].answer.value.failed && cancelled then Deleting(p.key, p.at) else Closing(p.key, p.at));
    case Delete(t) => Deleted(s, t);
    case Close(t) =>
      PlaceOkOf(s, t);
      var p := PlaceOf(s, t);
      Written(s, t, p.at, s.entries[p.at].(closed := true), Returned(p.key, p.at, s.entries[p.at].answer.value));
    case Wake(t) =>
      PlaceOkOf(s, t);
      var p := PlaceOf(s, t);
      Moved(s, t, Returned(p.key, p.at, s.entries[p.at].answer.value));
    case PeekLock(t, key) =>
      if key in s.m { EntryInMap(s, key); }
      Moved(s, t, if key in s.m then Peeking(key, s.m[key]) else PeekedNothing(key));
    case PeekSelect(t) =>
      PlaceOkOf(s, t);
      var p := PlaceOf(s, t);
      Moved(s, t, if s.entries[p.at].closed then Returned(p.key, p.at, s.entries[p.at].answer.value) else PeekedNothing(p.key));
    case Set(key, val) =>
      if key !in s.m { Added(s, Entry(key, Some(Answer(val, false)), true, true), Apply(s, a), 0); }
  }

  // ---- Whole runs ----

  lemma RunStep(states: seq<State>, actions: seq<Action>, i: nat)
    requires Run(states, actions) && i < |actions|
    ensures Enabled(states[i], actions[i]) && states[i + 1] == Apply(states[i], actions[i])
  {
    hide Enabled, Apply;
  }

  lemma {:induction false} RunInv(states: seq<State>, actions: seq<Action>, i: nat)
    requires Run(states, actions) && i < |states|
    ensures Inv(states[i])
  {
    if i > 0 {
      RunInv(states, actions, i - 1);
      RunStep(states, actions, i - 1);
      StepKeepsInv(states[i - 1], actions[i - 1]);
    }
  }

  /** In every interleaving, fn never runs twice at a time for one key. */
  lemma RunsNeverOverlap(states: seq<State>, actions: seq<Action>, i: nat, t: Caller, u: Caller)
    requires Run(states, actions) && i < |states|
    requires var p, q := PlaceOf(states[i], t), PlaceOf(states[i], u); p.Calling? && q.Calling? && p.key == q.key
    ensures t == u
  {
    RunInv(states, actions, i);
    PlaceOkOf(states[i], t);
    PlaceOkOf(states[i], u);
    assert Owns(PlaceOf(states[i], t), PlaceOf(states[i], t).at);
  }

  /** A cancelled failure takes out the entry its own caller made, and nothing else. */
  lemma DeletesItsOwn(states: seq<State>, actions: seq<Action>, i: nat, t: Caller)
    requires Run(states, actions) && i < |actions| && actions[i] == Delete(t)
    ensures var p, s, r := PlaceOf(states[i], t), states[i], states[i + 1];
      && p.Deleting? && p.key in s.m && s.m[p.key] == p.at < |s.entries|
      && s.entries[p.at].answer.Some? && s.entries[p.at].answer.value.failed
      && p.key !in r.m && r.entries == s.entries && forall k :: k != p.key ==> (k in r.m <==> k in s.m) && (k in s.m ==> r.m[k] == s.m[k])
  {
    RunInv(states, actions, i);
    RunStep(states, actions, i);
    PlaceOkOf(states[i], t);
  }

  // ---- Kept entries ----

  /** The key's entry has its answer and its owner is past the point where it could delete it. */
  ghost predicate Kept(s: State, key: string) {
    && key in s.m && s.m[key] < |s.entries| && s.entries[s.m[key]].answer.Some?
    && (s.entries[s.m[key]].closed || exists t :: t in s.place && s.place[t].Closing? && s.place[t].at == s.m[key])
  }

  lemma FinishedIsKept(s: State, key: string)
    requires Inv(s) && key in s.m && s.entries[s.m[key]].closed
    ensures Kept(s, key)
  {
    assert EntryOk(s.m, s.entries, s.m[key]);
  }

  /** No caller that could still delete or rewrite the entry. */
  lemma KeptAlone(s: State, key: string, t: Caller)
    requires Inv(s) && Kept(s, key)
    ensures Holds(PlaceOf(s, t)) ==> PlaceOf(s, t).key != key && PlaceOf(s, t).at != s.m[key]
  {
    PlaceOkOf(s, t);
    var p := PlaceOf(s, t);
    if Holds(p) && (p.key == key || p.at == s.m[key]) {
      assert Owns(p, s.m[key]);
      if u :| u in s.place && s.place[u].Closing? && s.place[u].at == s.m[key] { assert Owns(s.place[u], s.m[key]); }
    }
  }

  lemma KeptStep(s: State, a: Action, key: string)
    requires Inv(s) && Enabled(s, a) && Kept(s, key)
    ensures var r := Apply(s, a); Kept(r, key) && r.m[key] == s.m[key] && r.entries[r.m[key]].answer == s.entries[s.m[key]].answer
  {
    if !a.Set? { KeptAlone(s, key, a.caller); }
    hide Inv, PlaceOk;
    KeptMapStep(s, a, key);
    if !s.entries[s.m[key]].closed {
      KeptOpenStep(s, a, key);
    } else {
      hide Apply;
    }
  }

  lemma KeptMapStep(s: State, a: Action, key: string)
    requires Enabled(s, a) && key in s.m && s.m[key] < |s.entries| && s.entries[s.m[key]].answer.Some?
    requires !a.Set? && Holds(PlaceOf(s, a.caller)) ==> PlaceOf(s, a.caller).key != key && PlaceOf(s, a.caller).at != s.m[key]
    ensures var r, e := Apply(s, a), s.m[key];
      && key in r.m && r.m[key] == e && e < |r.entries| && r.entries[e].answer == s.entries[e].answer
      && (s.entries[e].closed ==> r.entries[e].closed)
  {
  }

  lemma KeptOpenStep(s: State, a: Action, key: string)
    requires Enabled(s, a) && Kept(s, key) && !s.entries[s.m[key]].closed
    ensures var r, e := Apply(s, a), s.m[key];
      e < |r.entries| && (r.entries[e].closed || exists t :: t in r.place && r.place[t].Closing? && r.place[t].at == e)
  {
    var t :| t in s.place && s.place[t].Closing? && s.place[t].at == s.m[key];
    var r := Apply(s, a);
    if a != Close(t) { assert t in r.place && r.place[t] == s.place[t]; }
  }

  /** Once a result is kept it stays: the same entry with the same answer at every later moment, and fn is neither about to
      run nor running for its key. */
  lemma {:induction false} KeptForever(states: seq<State>, actions: seq<Action>, i: nat, j: nat, key: string)
    requires Run(states, actions) && i <= j < |states| && Kept(states[i], key)
    ensures Kept(states[j], key) && states[j].m[key] == states[i].m[key]
    ensures states[j].entries[states[j].m[key]].answer == states[i].entries[states[i].m[key]].answer
    ensures forall t :: PlaceOf(states[j], t).Created? || PlaceOf(states[j], t).Calling? ==> PlaceOf(states[j], t).key != key
  {
    hide Apply, Enabled, Inv, Kept;
    if i < j {
      KeptForever(states, actions, i, j - 1, key);
      RunInv(states, actions, j - 1);
      RunStep(states, actions, j - 1);
      KeptStep(states[j - 1], actions[j - 1], key);
    }
    RunInv(states, actions, j);
    forall t ensures PlaceOf(states[j], t).Created? || PlaceOf(states[j], t).Calling? ==> PlaceOf(states[j], t).key != key {
      KeptAlone(states[j], key, t);
    }
  }

  /** What do decides after fn: everything but a failure under a cancelled context is kept from then on, errors included. */
  lemma KeptUnlessCancelledFailure(states: seq<State>, actions: seq<Action>, i: nat, t: Caller, cancelled: bool)
    requires Run(states, actions) && i < |actions| && actions[i] == CheckContext(t, cancelled)
    ensures var p := PlaceOf(states[i], t);
      && p.Stored? && p.at < |states[i].entries| && states[i].entries[p.at].answer.Some?
      && (Kept(states[i + 1], p.key) <==> !(cancelled && states[i].entries[p.at].answer.value.failed))
      && states[i + 1].entries == states[i].entries
  {
    var s, r := states[i], states[i + 1];
    RunInv(states, actions, i);
    RunStep(states, actions, i);
    RunInv(states, actions, i + 1);
    PlaceOkOf(s, t);
    var p := PlaceOf(s, t);
    if cancelled && s.entries[p.at].answer.value.failed {
      if Kept(r, p.key) { KeptAlone(r, p.key, t); }
    } else {
      assert r.place[t].Closing? && r.place[t].at == r.m[p.key];
    }
  }

  // ---- What callers get ----

  /** Two runs of fn for one key that both succeed cannot happen: of two entries of a key one left the map as a failure. */
  lemma OneSuccessPerKey(states: seq<State>, actions: seq<Action>, i: nat, d: nat, e: nat)
    requires Run(states, actions) && i < |states| && d < |states[i].entries| && e < |states[i].entries| && d != e
    requires states[i].entries[d].key == states[i].entries[e].key
    ensures var s := states[i];
      (s.entries[d].answer.Some? && s.entries[d].answer.value.failed && !s.entries[d].preset)
      || (s.entries[e].answer.Some? && s.entries[e].answer.value.failed && !s.entries[e].preset)
  {
    RunInv(states, actions, i);
    assert EntryOk(states[i].m, states[i].entries, d) && EntryOk(states[i].m, states[i].entries, e);
  }

  lemma EntryStep(s: State, a: Action, e: nat)
    requires Inv(s) && Enabled(s, a) && e < |s.entries|
    ensures var r := Apply(s, a);
      && e < |r.entries| && r.entries[e].key == s.entries[e].key && r.entries[e].preset == s.entries[e].preset
      && (s.entries[e].closed ==> r.entries[e].closed)
      && (s.entries[e].answer.Some? ==> r.entries[e].answer == s.entries[e].answer)
  {
    if a.FnReturns? { PlaceOkOf(s, a.caller); }
    hide Inv, PlaceOk;
  }

  /** Entries are never reused and an answer, once written, never changes. */
  lemma {:induction false} AnswersNeverChange(states: seq<State>, actions: seq<Action>, i: nat, j: nat, e: nat)
    requires Run(states, actions) && i <= j < |states| && e < |states[i].entries|
    ensures e < |states[j].entries| && states[j].entries[e].key == states[i].entries[e].key
    ensures states[i].entries[e].closed ==> states[j].entries[e].closed
    ensures states[i].entries[e].answer.Some? ==> states[j].entries[e].answer == states[i].entries[e].answer
  {
    hide Apply, Enabled, Inv;
    if i < j {
      AnswersNeverChange(states, actions, i, j - 1, e);
      RunInv(states, actions, j - 1);
      RunStep(states, actions, j - 1);
      EntryStep(states[j - 1], actions[j - 1], e);
    }
  }

  /** The entry that do(key) joins or makes. */
  function Joined(s: State, key: string): nat { if key in s.m then s.m[key] else |s.entries| }

  /** The caller is inside do, at entry e. */
  predicate InDo(p: Place, key: string, e: nat) {
    !p.Outside? && !p.PeekedNothing? && !p.Peeking? && p.key == key && p.at == e
  }

  lemma StaysInDo(s: State, a: Action, t: Caller, key: string, e: nat)
    requires Enabled(s, a) && !Free(PlaceOf(s, t)) && InDo(PlaceOf(s, t), key, e)
    ensures InDo(PlaceOf(Apply(s, a), t), key, e)
  {
  }

  lemma EntersDo(s: State, t: Caller, key: string)
    requires Enabled(s, Enter(t, key))
    ensures InDo(PlaceOf(Apply(s, Enter(t, key)), t), key, Joined(s, key))
  {
  }

  lemma {:induction false} StillInDo(states: seq<State>, actions: seq<Action>, i: nat, j: nat, t: Caller, key: string)
    requires Run(states, actions) && i < j < |states| && actions[i] == Enter(t, key)
    requires forall k :: i < k < j ==> !Free(PlaceOf(states[k], t))
    ensures InDo(PlaceOf(states[j], t), key, Joined(states[i], key))
  {
    hide Apply, Enabled, Joined, InDo, PlaceOf, Free;
    RunStep(states, actions, j - 1);
    if i + 1 < j {
      StillInDo(states, actions, i, j - 1, t, key);
      hide Run;
      StaysInDo(states[j - 1], actions[j - 1], t, key, Joined(states[i], key));
    } else {
      EntersDo(states[i], t, key);
    }
  }

  /** A call of do that started at step i and is over at j returned the answer of the entry it joined or made; that answer
      came from fn run for this key, or from set, and is the entry's answer for good. */
  lemma DoReturnsItsEntry(states: seq<State>, actions: seq<Action>, i: nat, j: nat, later: nat, t: Caller, key: string)
    requires Run(states, actions) && i < j <= later < |states| && actions[i] == Enter(t, key)
    requires (forall k :: i < k < j ==> !Free(PlaceOf(states[k], t))) && Free(PlaceOf(states[j], t))
    ensures var p, e := PlaceOf(states[j], t), Joined(states[i], key);
      && p.Returned? && e < |states[later].entries|
      && states[later].entries[e].key == key && states[later].entries[e].closed && states[later].entries[e].answer == Some(p.answer)
  {
    StillInDo(states, actions, i, j, t, key);
    RunInv(states, actions, j);
    PlaceOkOf(states[j], t);
    AnswersNeverChange(states, actions, j, later, Joined(states[i], key));
  }

  /** Callers of do that share an entry return the same answer, whenever each of them returns. */
  lemma JoinersAgree(states: seq<State>, actions: seq<Action>, i: nat, j: nat, t: Caller, u: Caller)
    requires Run(states, actions) && i < |states| && j < |states|
    requires var p, q := PlaceOf(states[i], t), PlaceOf(states[j], u); p.Returned? && q.Returned? && p.at == q.at
    ensures PlaceOf(states[i], t).answer == PlaceOf(states[j], u).answer
  {
    RunInv(states, actions, i);
    RunInv(states, actions, j);
    PlaceOkOf(states[i], t);
    PlaceOkOf(states[j], u);
    if i <= j {
      AnswersNeverChange(states, actions, i, j, PlaceOf(states[i], t).at);
    } else {
      AnswersNeverChange(states, actions, j, i, PlaceOf(states[i], t).at);
    }
  }

  // ---- What set and peek give ----

  /** set writes where the key has no entry, and its value is kept from then on; otherwise it changes nothing. */
  lemma SetKeeps(states: seq<State>, actions: seq<Action>, i: nat, j: nat, key: string, val: int)
    requires Run(states, actions) && i < j < |states| && actions[i] == Set(key, val)
    ensures key in states[i].m ==> states[i + 1] == states[i]
    ensures key !in states[i].m ==>
      && Kept(states[j], key) && states[j].entries[states[j].m[key]].closed
      && states[j].entries[states[j].m[key]].answer == Some(Answer(val, false))
  {
    RunStep(states, actions, i);
    if key !in states[i].m {
      var e := |states[i].entries|;
      var s := states[i + 1];
      assert s.m[key] == e && s.entries[e] == Entry(key, Some(Answer(val, false)), true, true);
      RunInv(states, actions, i + 1);
      hide Apply, Enabled, Inv;
      FinishedIsKept(s, key) by { RunInv(states, actions, i + 1); }
      KeptForever(states, actions, i + 1, j, key);
      AnswersNeverChange(states, actions, i + 1, j, e);
    }
  }

  /** peek asks once: it finds nothing exactly when the key has no entry, or its entry is open at that moment; otherwise it
      returns the entry's answer, which is final. It never waits, and it changes neither map nor entries. */
  lemma PeekGives(states: seq<State>, actions: seq<Action>, i: nat, t: Caller)
    requires Run(states, actions) && i < |actions|
    ensures forall key :: actions[i] == PeekLock(t, key) ==>
      && (PlaceOf(states[i + 1], t) == PeekedNothing(key) <==> key !in states[i].m)
      && (key in states[i].m ==> PlaceOf(states[i + 1], t) == Peeking(key, states[i].m[key]))
    ensures actions[i] == PeekSelect(t) ==>
      var p, s := PlaceOf(states[i], t), states[i];
      && p.Peeking? && p.at < |s.entries| && s.entries[p.at].key == p.key
      && (PlaceOf(states[i + 1], t) == PeekedNothing(p.key) <==> !s.entries[p.at].closed)
      && (s.entries[p.at].closed ==>
            s.entries[p.at].answer.Some? && PlaceOf(states[i + 1], t) == Returned(p.key, p.at, s.entries[p.at].answer.value))
    ensures actions[i].PeekLock? || actions[i].PeekSelect? ==> states[i + 1].m == states[i].m && states[i + 1].entries == states[i].entries
    ensures PlaceOf(states[i], t).Peeking? ==> Enabled(states[i], PeekSelect(t))
  {
    RunStep(states, actions, i);
    RunInv(states, actions, i);
    PlaceOkOf(states[i], t);
    var p := PlaceOf(states[i], t);
    if p.Peeking? { assert EntryOk(states[i].m, states[i].entries, p.at); }
    hide Inv, OwnersOk;
  }

  /** A finished peek or a later do of a kept key gets the kept answer: here a do that started after the key was kept. */
  lemma KeptIsReturned(states: seq<State>, actions: seq<Action>, i: nat, j: nat, t: Caller, key: string)
    requires Run(states, actions) && i < j < |states| && actions[i] == Enter(t, key) && Kept(states[i], key)
    requires (forall k :: i < k < j ==> !Free(PlaceOf(states[k], t))) && Free(PlaceOf(states[j], t))
    ensures PlaceOf(states[j], t).Returned?
    ensures Some(PlaceOf(states[j], t).answer) == states[i].entries[states[i].m[key]].answer
  {
    DoReturnsItsEntry(states, actions, i, j, j, t, key);
    AnswersNeverChange(states, actions, i, j, states[i].m[key]);
  }

  /** The caller a step belongs to. */
  predicate StepOf(a: Action, t: Caller) { !a.Set? && a.caller == t }

  /** Nobody waits for ever on the cache itself: while a joined entry is open, its owner has a step to take. */
  lemma WaitersHaveAnOwner(states: seq<State>, actions: seq<Action>, i: nat, t: Caller)
    requires Run(states, actions) && i < |states| && PlaceOf(states[i], t).Waiting?
    ensures Enabled(states[i], Wake(t))
      || exists u, a :: u != t && Owns(PlaceOf(states[i], u), PlaceOf(states[i], t).at) && StepOf(a, u) && Enabled(states[i], a)
  {
    var s := states[i];
    RunInv(states, actions, i);
    PlaceOkOf(s, t);
    var e := PlaceOf(s, t).at;
    assert EntryOk(s.m, s.entries, e);
    if !s.entries[e].closed {
      assert HasOwner(s, e);
      var u :| u in s.place && Owns(s.place[u], e);
      PlaceOkOf(s, u);
      var a := OwnersStep(s, u);
      assert StepOf(a, u) && Enabled(s, a);
    }
  }

  lemma OwnersStep(s: State, u: Caller) returns (a: Action)
    requires PlaceOk(s.m, s.entries, PlaceOf(s, u)) && exists e :: Owns(PlaceOf(s, u), e)
    ensures StepOf(a, u) && Enabled(s, a)
  {
    match PlaceOf(s, u)
    case Created(_, _) => a := CallFn(u);
    case Calling(_, _) => a := FnReturns(u, Answer(0, false));
    case Stored(_, _) => a := CheckContext(u, false);
    case Deleting(_, _) => a := Delete(u);
    case _ => a := Close(u);
  }

}
