/** The shared request pacer and the retry loop that uses it (pkg/scanner/nvdfetch.go). Times are milliseconds. */
module Pacing {
  import opened GradeTypes

  const SPACING_KEYLESS := 6200
  const SPACING_KEYED := 700
  const MAX_RETRIES := 3
  const BACKOFF_BASE := 5000
  const RETRY_AFTER_CAP := 60000

  function Later(a: int, b: int): int { if a >= b then a else b }

  function Sooner(a: int, b: int): int { if a <= b then a else b }

  /** One locked section of the pacer, with the clock it read; no deadline is None. */
  datatype Call = Wait(now: int, spacing: int, deadline: Option<int>) | Delay(until: int)

  predicate Refused(next: int, c: Call) { c.Wait? && c.deadline.Some? && Later(c.now, next) > c.deadline.value }

  function After(next: int, c: Call): int {
    match c
    case Wait(now, spacing, _) => if Refused(next, c) then next else Later(now, next) + spacing
    case Delay(until) => Later(until, next)
  }

  /** What wait returns: the start is not refused and the sleep until it is not cancelled. */
  predicate Waited(next: int, c: Call, cancelled: bool) { !Refused(next, c) && !cancelled }

  /** wait's comment says that a false result leaves nothing reserved. That is so if and only if the deadline refused it. */
  lemma NothingReservedExactly(next: int, c: Call, cancelled: bool)
    requires c.Wait? && c.spacing > 0 && !Waited(next, c, cancelled)
    ensures After(next, c) == next <==> Refused(next, c)
  {
  }

  /** One such wait: its context ends during the sleep, and the next request still has to wait for the spacing after it. */
  lemma CancelledWaitKeepsItsSlot()
    ensures var c := Wait(1000, SPACING_KEYLESS, Some(60000)); !Waited(4000, c, true) && After(4000, c) == 10200
  {
  }

  /** The process-wide pacer: next is the earliest start of the next request. */
  class Pacer {
    var next: int

    constructor (next: int)
      ensures this.next == next
    {
      this.next := next;
    }

    /** wait's locked section: the start it reserves, or None. */
    method Reserve(now: int, spacing: int, deadline: Option<int>) returns (start: Option<int>)
      modifies this
      ensures next == After(old(next), Call.Wait(now, spacing, deadline))
      ensures start == if Refused(old(next), Call.Wait(now, spacing, deadline)) then None else Some(Later(now, old(next)))
      ensures start.Some? && deadline.Some? ==> start.value <= deadline.value
      ensures start == None ==> next == old(next)
    {
      var s := now;
      if next > s {
        s := next;
      }
      if deadline.Some? && s > deadline.value {
        return None;
      }
      next := s + spacing;
      return Some(s);
    }

    /** wait: reserve, then sleep until the start; cancelled says that the context ended before it. */
    method Wait(now: int, spacing: int, deadline: Option<int>, cancelled: bool) returns (ok: bool, start: Option<int>)
      modifies this
      ensures next == After(old(next), Call.Wait(now, spacing, deadline))
      ensures ok <==> !Refused(old(next), Call.Wait(now, spacing, deadline)) && !cancelled
      ensures ok ==> start == Some(Later(now, old(next))) && (deadline.Some? ==> start.value <= deadline.value)
      ensures spacing > 0 && !ok ==> (next == old(next) <==> Refused(old(next), Call.Wait(now, spacing, deadline)))
    {
      start := Reserve(now, spacing, deadline);
      ok := start.Some? && !cancelled;
    }

    method DelayUntil(t: int)
      modifies this
      ensures next == After(old(next), Delay(t))
    {
      if t > next {
        next := t;
      }
    }
  }

  // ---- Every interleaving: the locked sections in the order in which they happen ----

  datatype Grant = Grant(start: int, spacing: int)

  function NextAfter(calls: seq<Call>, next: int): int {
    if calls == [] then next else After(NextAfter(calls[..|calls| - 1], next), calls[|calls| - 1])
  }

  /** The starts that the calls reserve, first to last. */
  function Grants(calls: seq<Call>, next: int): seq<Grant> {
    if calls == [] then []
    else
      var before, c := NextAfter(calls[..|calls| - 1], next), calls[|calls| - 1];
      Grants(calls[..|calls| - 1], next) +
      if c.Wait? && !Refused(before, c) then [Grant(Later(c.now, before), c.spacing)] else []
  }

  predicate Spaced(calls: seq<Call>, s: int) { forall c :: c in calls && c.Wait? ==> c.spacing >= s }

  lemma {:induction false} NextCovers(calls: seq<Call>, next: int)
    requires Spaced(calls, 0)
    ensures NextAfter(calls, next) >= next
    ensures forall g :: g in Grants(calls, next) ==> g.start + g.spacing <= NextAfter(calls, next)
    ensures forall c :: c in calls && c.Delay? ==> c.until <= NextAfter(calls, next)
  {
    if calls != [] {
      NextCovers(calls[..|calls| - 1], next);
      assert calls == calls[..|calls| - 1] + [calls[|calls| - 1]];
    }
  }

  /** No start is reserved before an earlier one's spacing is over. */
  lemma {:induction false} StartsAreSpaced(calls: seq<Call>, next: int, i: nat, j: nat)
    requires Spaced(calls, 0) && i < j < |Grants(calls, next)|
    ensures Grants(calls, next)[i].start + Grants(calls, next)[i].spacing <= Grants(calls, next)[j].start
  {
    var init, c := calls[..|calls| - 1], calls[|calls| - 1];
    assert calls == init + [c];
    if j < |Grants(init, next)| {
      StartsAreSpaced(init, next, i, j);
    } else {
      NextCovers(init, next);
      assert Grants(init, next)[i] in Grants(init, next);
    }
  }

  /** A start that call k reserves respects every delay asked for before it, and the caller's own deadline. */
  lemma GrantRespects(calls: seq<Call>, next: int, k: nat)
    requires Spaced(calls, 0) && k < |calls| && calls[k].Wait?
    ensures var before := NextAfter(calls[..k], next);
      if Refused(before, calls[k]) then
        NextAfter(calls[..k + 1], next) == before && Grants(calls[..k + 1], next) == Grants(calls[..k], next)
      else
        exists g :: Grants(calls[..k + 1], next) == Grants(calls[..k], next) + [g] && g.start >= calls[k].now
          && (calls[k].deadline.Some? ==> g.start <= calls[k].deadline.value)
          && forall d :: d in calls[..k] && d.Delay? ==> d.until <= g.start
  {
    assert calls[..k + 1][..k] == calls[..k] && calls[..k + 1][k] == calls[k];
    NextCovers(calls[..k], next);
    var g := Grant(Later(calls[k].now, NextAfter(calls[..k], next)), calls[k].spacing);
    assert !Refused(NextAfter(calls[..k], next), calls[k]) ==> Grants(calls[..k + 1], next) == Grants(calls[..k], next) + [g];
  }

  lemma {:induction false} GrantSpacing(calls: seq<Call>, next: int, s: int, i: nat)
    requires Spaced(calls, s) && i < |Grants(calls, next)|
    ensures Grants(calls, next)[i].spacing >= s
  {
    var init := calls[..|calls| - 1];
    assert calls == init + [calls[|calls| - 1]];
    if i < |Grants(init, next)| { GrantSpacing(init, next, s, i); }
  }

  /** The reserved starts in the window from x to x + w, both ends included. */
  function InWindow(g: seq<Grant>, x: int, w: int): set<nat> { set k: nat | k < |g| && x <= g[k].start <= x + w }

  /** Those of them that reserved at least s. */
  function Reserving(g: seq<Grant>, s: int, x: int, w: int): set<nat> {
    set k: nat | k < |g| && g[k].spacing >= s && x <= g[k].start <= x + w
  }

  lemma {:induction false} Extremes(s: set<nat>) returns (lo: nat, hi: nat)
    requires s != {}
    ensures lo in s && hi in s && forall k :: k in s ==> lo <= k <= hi
  {
    var x :| x in s;
    if s == {x} {
      lo, hi := x, x;
    } else {
      var rest := s - {x};
      assert s == rest + {x};
      assert rest != {};
      var a, b := Extremes(rest);
      lo, hi := if x < a then x else a, if x > b then x else b;
    }
  }

  lemma Scales(m: int, n: int, s: int)
    requires m <= n && s > 0
    ensures m * s <= n * s
  {
  }

  lemma GapsFit(n: nat, s: int, w: int)
    requires s > 0 && w >= 0 && n * s <= w
    ensures n <= w / s
  {
    var q := w / s;
    assert w < q * s + s;
    if n > q { Scales(q + 1, n, s); }
  }

  lemma {:induction false} GapsAddUp(g: seq<Grant>, s: int, ks: set<nat>) returns (lo: nat, hi: nat)
    requires s > 0 && ks != {} && forall k :: k in ks ==> k < |g| && g[k].spacing >= s
    requires forall i, j :: 0 <= i < j < |g| ==> g[i].start + g[i].spacing <= g[j].start
    ensures lo in ks && hi in ks && (forall k :: k in ks ==> lo <= k) && g[hi].start - g[lo].start >= (|ks| - 1) * s
    decreases |ks|
  {
    lo, hi := Extremes(ks);
    var rest := ks - {lo};
    assert |ks| == |rest| + 1;
    if rest == {} {
      hi := lo;
    } else {
      var a, b := GapsAddUp(g, s, rest);
      hi := b;
      assert a != lo && lo < a;
      assert (|ks| - 1) * s == (|rest| - 1) * s + s;
    }
  }

  /** Whatever the callers do, no window of length w holds more than w / s + 1 starts that reserved at least s, whatever the
      others reserved. */
  lemma ReservingBound(calls: seq<Call>, next: int, s: int, x: int, w: int)
    requires s > 0 && w >= 0 && Spaced(calls, 0)
    ensures |Reserving(Grants(calls, next), s, x, w)| <= w / s + 1
  {
    hide Grants;
    var g := Grants(calls, next);
    var ks := Reserving(g, s, x, w);
    if ks != {} {
      forall i, j | 0 <= i < j < |g| ensures g[i].start + g[i].spacing <= g[j].start { StartsAreSpaced(calls, next, i, j); }
      var lo, hi := GapsAddUp(g, s, ks);
      GapsFit(|ks| - 1, s, w);
    }
  }

  /** So when every spacing is at least s, no window of length w holds more than w / s + 1 starts. */
  lemma WindowBound(calls: seq<Call>, next: int, s: int, x: int, w: int)
    requires s > 0 && w >= 0 && Spaced(calls, s)
    ensures |InWindow(Grants(calls, next), x, w)| <= w / s + 1
  {
    hide Grants;
    var g := Grants(calls, next);
    assert Spaced(calls, 0);
    forall k: nat | k < |g| ensures g[k].spacing >= s { GrantSpacing(calls, next, s, k); }
    assert InWindow(g, x, w) == Reserving(g, s, x, w);
    ReservingBound(calls, next, s, x, w);
  }

  /** NVD's published limits, 5 requests in any 30 s without a key and 50 with one, hold for the starts; and where requests
      with and without a key mix, the limit of 5 still holds for those without. */
  lemma NvdLimitsHold(calls: seq<Call>, next: int, x: int)
    ensures Spaced(calls, SPACING_KEYLESS) ==> |InWindow(Grants(calls, next), x, 30000)| <= 5
    ensures Spaced(calls, SPACING_KEYED) ==> |InWindow(Grants(calls, next), x, 30000)| <= 50
    ensures Spaced(calls, SPACING_KEYED) ==> |Reserving(Grants(calls, next), SPACING_KEYLESS, x, 30000)| <= 5
  {
    if Spaced(calls, SPACING_KEYLESS) { WindowBound(calls, next, SPACING_KEYLESS, x, 30000); }
    if Spaced(calls, SPACING_KEYED) {
      WindowBound(calls, next, SPACING_KEYED, x, 30000);
      ReservingBound(calls, next, SPACING_KEYLESS, x, 30000);
    }
  }

  // ---- fetchNVD ----

  /** What the server or the transport answered; retryAfter is the parsed header, uncapped. */
  datatype Reply = TransportError(cancelled: bool) | Http(status: int, rejectsKey: bool, retryAfter: Option<int>)

  /** What one turn of the loop meets: others' use of the pacer and the key flag, the clock, and the reply. */
  datatype Turn = Turn(othersNext: int, othersRejected: bool, now: int, sleepCancelled: bool, reply: Reply, replied: int)

  datatype Outcome = Parsed | Cancelled | OutOfBudget | NetworkError | RateLimited | ServerError | OtherStatus

  /** A 429 or 403, a server error or a transport error is tried again. */
  predicate Retryable(r: Reply) {
    match r
    case TransportError(cancelled) => !cancelled
    case Http(status, _, _) => status == 429 || status == 403 || status >= 500
  }

  function FailureOf(r: Reply): Outcome
    requires Retryable(r)
  {
    if r.TransportError? then NetworkError else if r.status == 429 || r.status == 403 then RateLimited else ServerError
  }

  /** parseRetryAfter's bounds. */
  function RetryAfter(r: Reply): Option<int> {
    if r.Http? && r.retryAfter.Some? then Some(Sooner(Later(r.retryAfter.value, 0), RETRY_AFTER_CAP)) else None
  }

  function Shifted(attempt: nat): int { if attempt == 0 then BACKOFF_BASE else 2 * Shifted(attempt - 1) }

  function Backoff(r: Reply, attempt: nat): int {
    Sooner(if RetryAfter(r).Some? then RetryAfter(r).value else Shifted(attempt), RETRY_AFTER_CAP)
  }

  predicate RefusesKey(r: Reply) { r.Http? && (r.status == 401 || r.rejectsKey) }

  /** What a retry waits: the header, between 0 and a minute, where there is one; otherwise 5, 10, 20 and 40 seconds. */
  lemma {:induction false} BackoffIs(r: Reply, attempt: nat)
    requires attempt <= 3
    ensures r.Http? && r.retryAfter.Some? ==>
      Backoff(r, attempt) == if r.retryAfter.value < 0 then 0 else if r.retryAfter.value > 60000 then 60000 else r.retryAfter.value
    ensures !(r.Http? && r.retryAfter.Some?) ==>
      Backoff(r, attempt) == if attempt == 0 then 5000 else if attempt == 1 then 10000 else if attempt == 2 then 20000 else 40000
  {
    assert Shifted(0) == 5000 && Shifted(1) == 10000 && Shifted(2) == 20000 && Shifted(3) == 40000;
  }

  // ---- What a lookup owes its caller ----

  /** The reply is about the key that the request carried. */
  predicate KeyRefused(r: Reply, keyed: bool) { keyed && r.Http? && (r.status == 401 || r.rejectsKey) }

  /** A 429, a 403, a server error or a transport error that is not the context's. */
  predicate Transient(r: Reply, keyed: bool) {
    match r
    case TransportError(cancelled) => !cancelled
    case Http(status, _, _) => (status == 429 || status == 403 || status >= 500) && !KeyRefused(r, keyed)
  }

  /** The loop's attempt counter at request k: rejections of a key do not count. */
  function AttemptAt(turns: nat -> Turn, keyed: seq<bool>, k: nat): nat
    requires k <= |keyed|
  {
    if k == 0 then 0
    else AttemptAt(turns, keyed, k - 1) + if KeyRefused(turns(k - 1).reply, keyed[k - 1]) then 0 else 1
  }

  lemma {:induction false} AttemptAtPrefix(turns: nat -> Turn, keyed: seq<bool>, more: seq<bool>, k: nat)
    requires k <= |keyed|
    ensures AttemptAt(turns, keyed + more, k) == AttemptAt(turns, keyed, k)
  {
    if k > 0 { AttemptAtPrefix(turns, keyed, more, k - 1); }
  }

  /** When reply k lets the next request start: its capped Retry-After, or the back-off of its attempt. */
  function ReadyAgain(turns: nat -> Turn, keyed: seq<bool>, k: nat): int
    requires k < |keyed|
  {
    turns(k).replied + Backoff(turns(k).reply, AttemptAt(turns, keyed, k))
  }

  function SpacingOf(useKey: bool): int { if useKey then SPACING_KEYED else SPACING_KEYLESS }

  /** Every request is followed by the spacing of its own kind. */
  ghost predicate Apart(keyed: seq<bool>, starts: seq<int>)
    requires |keyed| == |starts|
  {
    forall i, j :: 0 <= i < j < |starts| ==> starts[i] + (if keyed[i] then 700 else 6200) <= starts[j]
  }

  /** No request starts before the wait that an earlier reply asked for is over. */
  ghost predicate WaitsOutReplies(turns: nat -> Turn, keyed: seq<bool>, starts: seq<int>)
    requires |keyed| == |starts|
  {
    forall i, j :: 0 <= i < j < |starts| && Transient(turns(i).reply, keyed[i]) ==> ReadyAgain(turns, keyed, i) <= starts[j]
  }

  /** The key is still in use after n requests: it was at first, and neither this lookup nor another saw it refused. */
  ghost predicate KeyOpen(turns: nat -> Turn, keyed: seq<bool>, n: nat, atFirst: bool)
    requires n <= |keyed|
  {
    atFirst && forall i :: 0 <= i < n ==> !turns(i).othersRejected && !KeyRefused(turns(i).reply, keyed[i])
  }

  ghost predicate NoKeyRefused(turns: nat -> Turn, keyed: seq<bool>) {
    forall k :: 0 <= k < |keyed| ==> !KeyRefused(turns(k).reply, keyed[k])
  }

  /** A request carries the key exactly while it is in use. */
  ghost predicate UsesKey(turns: nat -> Turn, keyed: seq<bool>, atFirst: bool) {
    forall k :: 0 <= k < |keyed| ==> (keyed[k] <==> KeyOpen(turns, keyed, k, atFirst) && !turns(k).othersRejected)
  }

  /** The first k requests that were not about the key. */
  ghost function Tries(turns: nat -> Turn, keyed: seq<bool>, k: nat): nat
    requires k <= |keyed|
  {
    |set i | 0 <= i < k && !KeyRefused(turns(i).reply, keyed[i])|
  }

  /** After reply k the lookup is not over: the key is dropped, or one of four tries is left. */
  ghost predicate GoesOn(turns: nat -> Turn, keyed: seq<bool>, k: nat)
    requires k < |keyed|
  {
    KeyRefused(turns(k).reply, keyed[k]) || (Transient(turns(k).reply, keyed[k]) && Tries(turns, keyed, k + 1) < 4)
  }

  ghost predicate AllGoOn(turns: nat -> Turn, keyed: seq<bool>, n: nat)
    requires n <= |keyed|
  {
    forall k :: 0 <= k < n ==> GoesOn(turns, keyed, k)
  }

  lemma {:induction false} TriesAre(turns: nat -> Turn, keyed: seq<bool>, k: nat)
    requires k <= |keyed|
    ensures Tries(turns, keyed, k) == AttemptAt(turns, keyed, k)
  {
    if k > 0 {
      TriesAre(turns, keyed, k - 1);
      var before := set i | 0 <= i < k - 1 && !KeyRefused(turns(i).reply, keyed[i]);
      var all := set i | 0 <= i < k && !KeyRefused(turns(i).reply, keyed[i]);
      assert all == if KeyRefused(turns(k - 1).reply, keyed[k - 1]) then before else before + {k - 1};
    }
  }

  lemma GoOnPrefix(turns: nat -> Turn, keyed: seq<bool>, useKey: bool, n: nat)
    requires n <= |keyed|
    ensures AllGoOn(turns, keyed + [useKey], n) <==> AllGoOn(turns, keyed, n)
  {
    var more := keyed + [useKey];
    forall k | 0 <= k < n ensures GoesOn(turns, more, k) <==> GoesOn(turns, keyed, k) {
      TriesAre(turns, more, k + 1);
      TriesAre(turns, keyed, k + 1);
      AttemptAtPrefix(turns, keyed, [useKey], k + 1);
    }
    hide GoesOn;
  }

  ghost predicate NextWaits(turns: nat -> Turn, keyed: seq<bool>, n: nat, next: int)
    requires n <= |keyed|
  {
    forall i :: 0 <= i < n && Transient(turns(i).reply, keyed[i]) ==> ReadyAgain(turns, keyed, i) <= next
  }

  /** The starts so far, and what the first n replies ask of the next start. */
  ghost predicate Paced(turns: nat -> Turn, keyed: seq<bool>, starts: seq<int>, n: nat, next: int) {
    && |keyed| == |starts| && n <= |starts|
    && Apart(keyed, starts) && WaitsOutReplies(turns, keyed, starts) && NextWaits(turns, keyed, n, next)
    && forall i :: 0 <= i < |starts| ==> starts[i] + SpacingOf(keyed[i]) <= next
  }

  lemma PacedLater(turns: nat -> Turn, keyed: seq<bool>, starts: seq<int>, n: nat, next: int, later: int)
    requires Paced(turns, keyed, starts, n, next) && next <= later
    ensures Paced(turns, keyed, starts, n, later)
  {
    hide ReadyAgain, Transient;
  }

  lemma ReadyAgainPrefix(turns: nat -> Turn, keyed: seq<bool>, useKey: bool)
    ensures forall i :: 0 <= i < |keyed| ==> ReadyAgain(turns, keyed + [useKey], i) == ReadyAgain(turns, keyed, i)
  {
    forall i | 0 <= i < |keyed| ensures ReadyAgain(turns, keyed + [useKey], i) == ReadyAgain(turns, keyed, i) {
      AttemptAtPrefix(turns, keyed, [useKey], i);
    }
  }

  lemma PacedStart(turns: nat -> Turn, keyed: seq<bool>, starts: seq<int>, next: int, start: int, useKey: bool)
    requires Paced(turns, keyed, starts, |starts|, next) && next <= start
    ensures Paced(turns, keyed + [useKey], starts + [start], |starts|, start + SpacingOf(useKey))
  {
    var r := starts + [start];
    ReadyAgainPrefix(turns, keyed, useKey);
    assert SpacingOf(true) > 0 && SpacingOf(false) > 0;
    assert forall i :: 0 <= i < |starts| ==> r[i] == starts[i] && (keyed + [useKey])[i] == keyed[i];
    hide ReadyAgain, Transient, SpacingOf;
  }

  lemma PacedReply(turns: nat -> Turn, keyed: seq<bool>, starts: seq<int>, n: nat, next: int)
    requires Paced(turns, keyed, starts, n, next) && n < |starts|
    requires Transient(turns(n).reply, keyed[n]) ==> ReadyAgain(turns, keyed, n) <= next
    ensures Paced(turns, keyed, starts, n + 1, next)
  {
    hide Apart, WaitsOutReplies, ReadyAgain, Transient;
  }

  /** The wait that a reply asked for holds back every request of the process. */
  ghost predicate HeldBack(turns: nat -> Turn, keyed: seq<bool>, next: int) {
    forall k :: 0 <= k < |keyed| && GoesOn(turns, keyed, k) && Transient(turns(k).reply, keyed[k]) ==> ReadyAgain(turns, keyed, k) <= next
  }

  lemma PacedHolds(turns: nat -> Turn, keyed: seq<bool>, starts: seq<int>, n: nat, next: int)
    requires Paced(turns, keyed, starts, n, next)
    requires n == |keyed| || (n == |keyed| - 1 && !GoesOn(turns, keyed, n))
    ensures HeldBack(turns, keyed, next)
  {
    hide Apart, WaitsOutReplies, ReadyAgain, Transient, GoesOn;
  }

  lemma PacedMeans(turns: nat -> Turn)
    ensures forall next :: Paced(turns, [], [], 0, next)
    ensures forall keyed, starts, n, next :: Paced(turns, keyed, starts, n, next) ==>
      |keyed| == |starts| && Apart(keyed, starts) && WaitsOutReplies(turns, keyed, starts)
  {
    hide ReadyAgain, Transient;
  }

  lemma DelayIsLater(next: int, until: int)
    ensures After(next, Delay(until)) >= next && After(next, Delay(until)) >= until
  {
  }

  lemma NeverEarlier(next: int, now: int, useKey: bool, end: int)
    ensures After(next, Call.Wait(now, SpacingOf(useKey), Some(end))) >= next
  {
  }

  lemma RefusedStays(next: int, now: int, spacing: int, end: int)
    ensures Refused(next, Call.Wait(now, spacing, Some(end))) ==>
      After(next, Call.Wait(now, spacing, Some(end))) == next && Later(now, next) > end
  {
  }

  lemma Reserved(next: int, now: int, spacing: int, end: int)
    ensures !Refused(next, Call.Wait(now, spacing, Some(end))) ==>
      After(next, Call.Wait(now, spacing, Some(end))) == Later(now, next) + spacing && next <= Later(now, next) <= end
  {
  }

  /** What the switch over a reply decides. */
  datatype Decision = Finish(outcome: Outcome) | DropKey | Retry(wait: int)

  function Decide(r: Reply, useKey: bool, attempt: nat): Decision {
    if r.TransportError? && r.cancelled then Finish(Cancelled)
    else if r.Http? && useKey && RefusesKey(r) then DropKey
    else if r.Http? && r.status == 200 then Finish(Parsed)
    else if !Retryable(r) then Finish(OtherStatus)
    else if attempt >= MAX_RETRIES then Finish(FailureOf(r))
    else Retry(Backoff(r, attempt))
  }

  lemma Decided(r: Reply, useKey: bool, attempt: nat)
    ensures var d := Decide(r, useKey, attempt);
      && (d.DropKey? <==> KeyRefused(r, useKey)) && (d.DropKey? ==> useKey) && d != Finish(OutOfBudget)
      && (d.Retry? ==> attempt < MAX_RETRIES && d.wait == Backoff(r, attempt))
  {
    hide Backoff;
  }

  /** The loop's counter and key: at most one request was sent in vain for the key, and then the key is out of use. */
  ghost predicate Counted(turns: nat -> Turn, keyed: seq<bool>, attempt: nat, usable: bool, atFirst: bool) {
    && attempt == AttemptAt(turns, keyed, |keyed|) && attempt <= |keyed| <= attempt + 1
    && (|keyed| == attempt + 1 ==> !usable && atFirst)
    && (|keyed| == attempt ==> forall i :: 0 <= i < |keyed| ==> !KeyRefused(turns(i).reply, keyed[i]))
    && UsesKey(turns, keyed, atFirst) && (usable <==> KeyOpen(turns, keyed, |keyed|, atFirst))
  }

  lemma {:induction false} CountedNext(turns: nat -> Turn, keyed: seq<bool>, attempt: nat, usable: bool, useKey: bool, atFirst: bool)
    requires Counted(turns, keyed, attempt, usable, atFirst) && (useKey <==> usable && !turns(|keyed|).othersRejected)
    ensures var dropped := KeyRefused(turns(|keyed|).reply, useKey);
      Counted(turns, keyed + [useKey], if dropped then attempt else attempt + 1, useKey && !dropped, atFirst)
  {
    AttemptAtPrefix(turns, keyed, [useKey], |keyed|);
    var more := keyed + [useKey];
    assert forall i :: 0 <= i < |keyed| ==> more[i] == keyed[i];
    forall k: nat | k <= |keyed| ensures KeyOpen(turns, more, k, atFirst) <==> KeyOpen(turns, keyed, k, atFirst) {}
  }

  /** Between two turns of the loop. */
  ghost predicate Going(turns: nat -> Turn, keyed: seq<bool>, starts: seq<int>, attempt: nat, end: int, usable: bool,
                        atFirst: bool, next: int)
  {
    && Counted(turns, keyed, attempt, usable, atFirst) && Paced(turns, keyed, starts, |starts|, next)
    && AllGoOn(turns, keyed, |keyed|)
    && forall s :: s in starts ==> s <= end
  }

  /** What a lookup's requests keep to. */
  ghost predicate KeepsTo(turns: nat -> Turn, keyed: seq<bool>, starts: seq<int>, end: int, keyAtFirst: bool) {
    && |keyed| == |starts| <= MAX_RETRIES + 2
    && (!keyAtFirst ==> |starts| <= MAX_RETRIES + 1)
    && (forall s :: s in starts ==> s <= end)
    && Apart(keyed, starts) && WaitsOutReplies(turns, keyed, starts) && UsesKey(turns, keyed, keyAtFirst)
  }

  /** The last reply, when it was a try of its own. */
  ghost predicate LastIs(turns: nat -> Turn, keyed: seq<bool>, accepts: Reply -> bool) {
    |keyed| > 0 && !KeyRefused(turns(|keyed| - 1).reply, keyed[|keyed| - 1]) && accepts(turns(|keyed| - 1).reply)
  }

  /** The lookup stopped at a wait: before the first request, or after a reply that asked for another one. */
  ghost predicate StoppedWaiting(turns: nat -> Turn, keyed: seq<bool>) { |keyed| == 0 || GoesOn(turns, keyed, |keyed| - 1) }

  /** Exactly when each outcome is reported. Only a reply that asks for another request is followed by one. */
  ghost predicate Reports(turns: nat -> Turn, keyed: seq<bool>, outcome: Outcome) {
    && (|keyed| > 0 ==> AllGoOn(turns, keyed, |keyed| - 1))
    && (outcome == Parsed <==> LastIs(turns, keyed, (r: Reply) => r.Http? && r.status == 200))
    && (outcome == OtherStatus <==>
          LastIs(turns, keyed, (r: Reply) => r.Http? && r.status != 200 && r.status != 429 && r.status != 403 && r.status < 500))
    && (outcome == NetworkError <==>
          LastIs(turns, keyed, (r: Reply) => r.TransportError? && !r.cancelled) && Tries(turns, keyed, |keyed|) == 4)
    && (outcome == RateLimited <==>
          LastIs(turns, keyed, (r: Reply) => r.Http? && (r.status == 429 || r.status == 403)) && Tries(turns, keyed, |keyed|) == 4)
    && (outcome == ServerError <==>
          LastIs(turns, keyed, (r: Reply) => r.Http? && r.status >= 500) && Tries(turns, keyed, |keyed|) == 4)
    && (outcome == Cancelled <==>
          LastIs(turns, keyed, (r: Reply) => r.TransportError? && r.cancelled)
          || (StoppedWaiting(turns, keyed) && turns(|keyed|).sleepCancelled))
    && (outcome == OutOfBudget <==> StoppedWaiting(turns, keyed) && !turns(|keyed|).sleepCancelled)
  }

  lemma StoppedReports(turns: nat -> Turn, keyed: seq<bool>)
    requires AllGoOn(turns, keyed, |keyed|)
    ensures Reports(turns, keyed, if turns(|keyed|).sleepCancelled then Cancelled else OutOfBudget)
  {
    hide Tries;
    if |keyed| > 0 { assert GoesOn(turns, keyed, |keyed| - 1); }
  }

  /** What a reply that ends the lookup is reported as. */
  lemma Outcomes(r: Reply, useKey: bool, attempt: nat)
    requires attempt <= MAX_RETRIES && Decide(r, useKey, attempt).Finish?
    ensures var o := Decide(r, useKey, attempt).outcome;
      && !KeyRefused(r, useKey) && !(Transient(r, useKey) && attempt + 1 < 4) && o != OutOfBudget
      && (o == Parsed <==> r.Http? && r.status == 200)
      && (o == OtherStatus <==> r.Http? && r.status != 200 && r.status != 429 && r.status != 403 && r.status < 500)
      && (o == NetworkError <==> r.TransportError? && !r.cancelled && attempt + 1 == 4)
      && (o == RateLimited <==> r.Http? && (r.status == 429 || r.status == 403) && attempt + 1 == 4)
      && (o == ServerError <==> r.Http? && r.status >= 500 && attempt + 1 == 4)
      && (o == Cancelled <==> r.TransportError? && r.cancelled)
  {
  }

  lemma LastTry(turns: nat -> Turn, keyed: seq<bool>, useKey: bool, attempt: nat)
    requires AllGoOn(turns, keyed, |keyed|) && attempt == AttemptAt(turns, keyed, |keyed|) && !KeyRefused(turns(|keyed|).reply, useKey)
    ensures var more := keyed + [useKey]; Tries(turns, more, |more|) == attempt + 1 && AllGoOn(turns, more, |keyed|)
  {
    var more := keyed + [useKey];
    GoOnPrefix(turns, keyed, useKey, |keyed|);
    TriesAre(turns, more, |more|);
    AttemptAtPrefix(turns, keyed, [useKey], |keyed|);
    hide Tries, AllGoOn;
  }

  lemma FinishedReports(turns: nat -> Turn, keyed: seq<bool>, useKey: bool, attempt: nat)
    requires AllGoOn(turns, keyed, |keyed|) && attempt == AttemptAt(turns, keyed, |keyed|) && attempt <= MAX_RETRIES
    requires Decide(turns(|keyed|).reply, useKey, attempt).Finish?
    ensures Reports(turns, keyed + [useKey], Decide(turns(|keyed|).reply, useKey, attempt).outcome)
    ensures !GoesOn(turns, keyed + [useKey], |keyed|)
  {
    hide Decide, Tries, AllGoOn, KeyRefused, Transient, AttemptAt;
    Outcomes(turns(|keyed|).reply, useKey, attempt);
    LastTry(turns, keyed, useKey, attempt);
    assert (keyed + [useKey])[|keyed|] == useKey;
  }

  lemma RetriedGoesOn(turns: nat -> Turn, keyed: seq<bool>, useKey: bool, attempt: nat)
    requires AllGoOn(turns, keyed, |keyed|) && attempt == AttemptAt(turns, keyed, |keyed|)
    requires !Decide(turns(|keyed|).reply, useKey, attempt).Finish?
    ensures AllGoOn(turns, keyed + [useKey], |keyed| + 1)
  {
    var more, r := keyed + [useKey], turns(|keyed|).reply;
    GoOnPrefix(turns, keyed, useKey, |keyed|);
    TriesAre(turns, more, |more|);
    AttemptAtPrefix(turns, keyed, [useKey], |keyed|);
    hide Tries;
    assert GoesOn(turns, more, |keyed|);
  }

  lemma GoingKeepsTo(turns: nat -> Turn, keyed: seq<bool>, starts: seq<int>, attempt: nat, end: int, usable: bool, atFirst: bool)
    requires Counted(turns, keyed, attempt, usable, atFirst) && attempt <= MAX_RETRIES + 1 && forall s :: s in starts ==> s <= end
    requires |keyed| == |starts| && Apart(keyed, starts) && WaitsOutReplies(turns, keyed, starts)
    ensures KeepsTo(turns, keyed, starts, end, atFirst) && attempt == AttemptAt(turns, keyed, |keyed|) <= |starts|
    ensures usable ==> NoKeyRefused(turns, keyed)
  {
    hide Apart, WaitsOutReplies, AttemptAt, KeyRefused;
  }

  lemma CountedStart(turns: nat -> Turn, usable: bool)
    ensures Counted(turns, [], 0, usable, usable)
  {
  }

  lemma DroppedIsNoTry(r: Reply, useKey: bool)
    requires KeyRefused(r, useKey)
    ensures !Transient(r, useKey)
  {
  }

  class Enricher {
    const hasKey: bool
    const keyValid: bool
    const budget: int
    const pacer: Pacer
    var keyRejected: bool
    var deadline: Option<int>

    constructor (hasKey: bool, keyValid: bool, budget: int, pacer: Pacer)
      ensures this.hasKey == hasKey && this.keyValid == keyValid && this.budget == budget && this.pacer == pacer
      ensures !keyRejected && deadline == None
    {
      this.hasKey, this.keyValid, this.budget, this.pacer := hasKey, keyValid, budget, pacer;
      keyRejected, deadline := false, None;
    }

    /** enrichDeadline: the budget's end is fixed by the first use. */
    method EnrichDeadline(now: int) returns (d: int)
      modifies this`deadline
      ensures deadline == Some(d)
      ensures d == if old(deadline).Some? then old(deadline).value else now + budget
    {
      if deadline == None {
        deadline := Some(now + budget);
      }
      d := deadline.value;
    }

    predicate KeyUsable()
      reads this
    {
      hasKey && keyValid && !keyRejected
    }

    /** Whether this request carries the key; others may have found it rejected. */
    method ChooseKey(othersRejected: bool) returns (useKey: bool)
      modifies this`keyRejected
      ensures keyRejected == (old(keyRejected) || othersRejected || (hasKey && !keyValid))
      ensures (useKey <==> KeyUsable()) && (useKey <==> old(KeyUsable()) && !othersRejected)
    {
      if othersRejected {
        keyRejected := true;
      }
      useKey := hasKey && !keyRejected;
      if useKey && !keyValid {
        useKey := false;
        keyRejected := true;
      }
    }

    /** A turn up to the request: others use the pacer, the key is chosen, wait is called. */
    method Begin(t: Turn, end: int, ghost turns: nat -> Turn, ghost keyed: seq<bool>, ghost starts: seq<int>)
      returns (ok: bool, start: int, useKey: bool)
      requires Paced(turns, keyed, starts, |starts|, pacer.next)
      modifies this`keyRejected, pacer
      ensures (old(keyRejected) ==> keyRejected) && (useKey <==> KeyUsable()) && (useKey <==> old(KeyUsable()) && !t.othersRejected)
      ensures ok ==> start <= end && Paced(turns, keyed + [useKey], starts + [start], |starts|, pacer.next)
      ensures t.sleepCancelled ==> !ok
      ensures !ok ==> Paced(turns, keyed, starts, |starts|, pacer.next)
      ensures !ok && !t.sleepCancelled ==> Later(t.now, pacer.next) > end
    {
      hide *;
      ghost var before := pacer.next;
      pacer.DelayUntil(t.othersNext);
      DelayIsLater(before, t.othersNext);
      PacedLater(turns, keyed, starts, |starts|, before, pacer.next);
      before := pacer.next;
      useKey := ChooseKey(t.othersRejected);
      var spacing := SpacingOf(useKey);
      var at: Option<int>;
      ok, at := pacer.Wait(t.now, spacing, Some(end), t.sleepCancelled);
      start := if at.Some? then at.value else t.now;
      Reserved(before, t.now, spacing, end);
      RefusedStays(before, t.now, spacing, end);
      if ok {
        PacedStart(turns, keyed, starts, before, start, useKey);
      } else {
        NeverEarlier(before, t.now, useKey, end);
        PacedLater(turns, keyed, starts, |starts|, before, pacer.next);
      }
    }

    /** The wait that a reply asks for holds back every request of the process. */
    method HoldBack(t: Turn, wait: int, ghost turns: nat -> Turn, ghost keyed: seq<bool>, ghost starts: seq<int>)
      requires starts != [] && t == turns(|starts| - 1) && Paced(turns, keyed, starts, |starts| - 1, pacer.next)
      requires wait == Backoff(t.reply, AttemptAt(turns, keyed, |starts| - 1))
      modifies pacer
      ensures Paced(turns, keyed, starts, |starts|, pacer.next)
    {
      hide Paced, Transient, Backoff, AttemptAt, After;
      ghost var before := pacer.next;
      pacer.DelayUntil(t.replied + wait);
      DelayIsLater(before, t.replied + wait);
      PacedLater(turns, keyed, starts, |starts| - 1, before, pacer.next);
      PacedReply(turns, keyed, starts, |starts| - 1, pacer.next);
    }

    /** One turn of the loop: done is None when it goes round again. */
    method TakeTurn(end: int, attempt0: nat, turns: nat -> Turn, keyed0: seq<bool>, starts0: seq<int>, ghost atFirst: bool)
      returns (done: Option<Outcome>, attempt: nat, keyed: seq<bool>, starts: seq<int>)
      requires attempt0 <= MAX_RETRIES && Going(turns, keyed0, starts0, attempt0, end, KeyUsable(), atFirst, pacer.next)
      modifies this`keyRejected, pacer
      ensures old(keyRejected) ==> keyRejected
      ensures done.None? ==>
        && attempt <= MAX_RETRIES && Going(turns, keyed, starts, attempt, end, KeyUsable(), atFirst, pacer.next)
        && (attempt > attempt0 || (attempt == attempt0 && old(KeyUsable()) && !KeyUsable()))
      ensures done.Some? ==> KeepsTo(turns, keyed, starts, end, atFirst) && Reports(turns, keyed, done.value)
      ensures done.Some? && KeyUsable() ==> NoKeyRefused(turns, keyed)
      ensures done.Some? ==> HeldBack(turns, keyed, pacer.next)
      ensures done == Some(OutOfBudget) ==> Later(turns(|starts|).now, pacer.next) > end
    {
      attempt, keyed, starts := attempt0, keyed0, starts0;
      hide Paced, Apart, WaitsOutReplies, UsesKey, KeyOpen, Decide, Transient, AttemptAt, Backoff, KeyRefused, Counted, KeepsTo, Reports, AllGoOn, NoKeyRefused, HeldBack;
      PacedMeans(turns);
      ghost var usable := KeyUsable();
      GoingKeepsTo(turns, keyed, starts, attempt, end, usable, atFirst);
      var t := turns(|starts|);
      var ok, start, useKey := Begin(t, end, turns, keyed, starts);
      if !ok {
        StoppedReports(turns, keyed);
        PacedHolds(turns, keyed, starts, |starts|, pacer.next);
        return Some(if t.sleepCancelled then Cancelled else OutOfBudget), attempt, keyed, starts;
      }
      CountedNext(turns, keyed, attempt, usable, useKey, atFirst);
      AttemptAtPrefix(turns, keyed, [useKey], |keyed|);
      Decided(t.reply, useKey, attempt);
      if Decide(t.reply, useKey, attempt).Finish? {
        FinishedReports(turns, keyed, useKey, attempt);
      } else {
        RetriedGoesOn(turns, keyed, useKey, attempt);
      }
      starts, keyed := starts + [start], keyed + [useKey];
      match Decide(t.reply, useKey, attempt)
      case Finish(o) =>
        GoingKeepsTo(turns, keyed, starts, attempt + 1, end, useKey, atFirst);
        PacedHolds(turns, keyed, starts, |starts| - 1, pacer.next);
        return Some(o), attempt, keyed, starts;
      case DropKey =>
        keyRejected := true;
        DroppedIsNoTry(t.reply, useKey);
        PacedReply(turns, keyed, starts, |starts| - 1, pacer.next);
        return None, attempt, keyed, starts;
      case Retry(wait) =>
        HoldBack(t, wait, turns, keyed, starts);
        return None, attempt + 1, keyed, starts;
    }

    /** fetchNVD; turns(k) is what the k-th turn of the loop meets, starts are the starts of the requests sent, and keyed says
        which of them carried the key. */
    method Fetch(now: int, turns: nat -> Turn) returns (outcome: Outcome, starts: seq<int>, keyed: seq<bool>)
      modifies this, pacer
      ensures old(keyRejected) ==> keyRejected
      ensures old(deadline).Some? ==> deadline == old(deadline)
      ensures deadline.Some? && KeepsTo(turns, keyed, starts, deadline.value, old(KeyUsable())) && Reports(turns, keyed, outcome)
      ensures HeldBack(turns, keyed, pacer.next)
      // a refused key is remembered
      ensures KeyUsable() ==> NoKeyRefused(turns, keyed)
      // the budget is used up only when the next start would come after its end
      ensures outcome == OutOfBudget ==> Later(turns(|starts|).now, pacer.next) > deadline.value
    {
      var end := EnrichDeadline(now);
      starts, keyed := [], [];
      hide Paced, Counted, KeepsTo, Reports, NoKeyRefused, HeldBack;
      PacedMeans(turns);
      CountedStart(turns, KeyUsable());
      var attempt: nat := 0;
      while true
        invariant deadline == Some(end) && (old(keyRejected) ==> keyRejected)
        invariant attempt <= MAX_RETRIES && Going(turns, keyed, starts, attempt, end, KeyUsable(), old(KeyUsable()), pacer.next)
        decreases MAX_RETRIES + 1 - attempt, if KeyUsable() then 1 else 0
      {
        var done: Option<Outcome>;
        done, attempt, keyed, starts := TakeTurn(end, attempt, turns, keyed, starts, old(KeyUsable()));
        if done.Some? {
          return done.value, starts, keyed;
        }
      }
    }
  }
}
