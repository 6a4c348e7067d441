/** The order Go's `<` gives strings: byte by byte, a proper prefix first. */
module Ordering {

  predicate Less(a: string, b: string) {
    if b == "" then false
    else if a == "" then true
    else a[0] < b[0] || (a[0] == b[0] && Less(a[1..], b[1..]))
  }

  /** a is smaller at place i, and the same before it. */
  predicate SmallerAt(a: string, b: string, i: nat) { i < |a| && i < |b| && a[i] < b[i] && a[..i] == b[..i] }

  lemma SmallerBehind(a: string, b: string, i: nat)
    requires a != "" && b != "" && a[0] == b[0]
    ensures SmallerAt(a, b, i + 1) <==> SmallerAt(a[1..], b[1..], i)
  {
    var c, d := a[1..], b[1..];
    if i + 1 <= |a| && i + 1 <= |b| {
      assert a[..i + 1] == [a[0]] + c[..i] && b[..i + 1] == [b[0]] + d[..i];
      assert a[..i + 1][1..] == c[..i] && b[..i + 1][1..] == d[..i];
    }
  }

  lemma SmallerFirst(a: string, b: string, i: nat)
    requires SmallerAt(a, b, i)
    ensures a != "" && b != "" && (i == 0 ==> a[0] < b[0]) && (i > 0 ==> a[0] == b[0])
  {
    if i > 0 { assert a[..i][0] == a[0] && b[..i][0] == b[0]; }
  }

  lemma {:induction false} SmallerIsLess(a: string, b: string, i: nat)
    requires SmallerAt(a, b, i)
    ensures Less(a, b)
  {
    SmallerFirst(a, b, i);
    hide SmallerAt;
    if i > 0 {
      SmallerBehind(a, b, i - 1);
      SmallerIsLess(a[1..], b[1..], i - 1);
    }
  }

  lemma {:induction false} PrefixIsLess(a: string, b: string)
    requires a <= b && a != b
    ensures Less(a, b)
  {
    if a != "" {
      assert a == [a[0]] + a[1..] && b == [b[0]] + b[1..];
      PrefixIsLess(a[1..], b[1..]);
    }
  }

  lemma {:induction false} LessFinds(a: string, b: string)
    requires Less(a, b)
    ensures (a <= b && a != b) || exists i :: SmallerAt(a, b, i)
  {
    if a != "" {
      if a[0] < b[0] {
        assert a[..0] == b[..0];
        assert SmallerAt(a, b, 0);
      } else {
        LessFinds(a[1..], b[1..]);
        assert a == [a[0]] + a[1..] && b == [b[0]] + b[1..];
        if i: nat :| SmallerAt(a[1..], b[1..], i) { SmallerBehind(a, b, i); }
      }
    }
  }

  /** a is a proper prefix of b, or smaller at the first place where they differ. */
  lemma LessIs(a: string, b: string)
    ensures Less(a, b) <==> (a <= b && a != b) || exists i :: SmallerAt(a, b, i)
  {
    hide SmallerAt, Less;
    if Less(a, b) { LessFinds(a, b); }
    if a <= b && a != b { PrefixIsLess(a, b); }
    if i: nat :| SmallerAt(a, b, i) { SmallerIsLess(a, b, i); }
  }

  lemma {:induction false} LessIrreflexive(a: string)
    ensures !Less(a, a)
  {
    if a != "" {
      LessIrreflexive(a[1..]);
    }
  }

  lemma {:induction false} LessTransitive(a: string, b: string, c: string)
    requires Less(a, b) && Less(b, c)
    ensures Less(a, c)
  {
    if a != "" && a[0] == b[0] && b[0] == c[0] {
      LessTransitive(a[1..], b[1..], c[1..]);
    }
  }

  lemma {:induction false} LessTotal(a: string, b: string)
    ensures Less(a, b) || Less(b, a) || a == b
  {
    if a != "" && b != "" && a[0] == b[0] {
      LessTotal(a[1..], b[1..]);
      assert a == [a[0]] + a[1..] && b == [b[0]] + b[1..];
    }
  }

  lemma LessAsymmetric(a: string, b: string)
    requires Less(a, b)
    ensures !Less(b, a)
  {
    if Less(b, a) {
      LessTransitive(a, b, a);
      LessIrreflexive(a);
    }
  }

  /** Strictly ascending: sorted, with no element twice. */
  ghost predicate Ascending(s: seq<string>) {
    forall i, j :: 0 <= i < j < |s| ==> Less(s[i], s[j])
  }

  /** Every non-empty finite set of strings has a smallest one. */
  lemma {:induction false} LeastExists(s: set<string>)
    requires s != {}
    ensures exists m :: m in s && forall x :: x in s && x != m ==> Less(m, x)
    decreases |s|
  {
    var e :| e in s;
    var rest := s - {e};
    if rest == {} {
      assert s == {e};
    } else {
      LeastExists(rest);
      var m :| m in rest && forall x :: x in rest && x != m ==> Less(m, x);
      LessTotal(e, m);
      if Less(e, m) {
        forall x | x in s && x != e ensures Less(e, x) {
          if x != m { LessTransitive(e, m, x); }
        }
      } else {
        assert forall x :: x in s && x != m ==> x == e || x in rest;
      }
    }
  }

  ghost function Least(s: set<string>): (m: string)
    requires s != {}
    ensures m in s && forall x :: x in s && x != m ==> Less(m, x)
  {
    LeastExists(s);
    var m :| m in s && forall x :: x in s && x != m ==> Less(m, x);
    m
  }

  lemma AscendingCons(m: string, tail: seq<string>)
    requires Ascending(tail) && forall x :: x in tail ==> Less(m, x)
    ensures Ascending([m] + tail)
  {
    var r := [m] + tail;
    forall i, j | 0 <= i < j < |r| ensures Less(r[i], r[j]) {
      assert tail[j - 1] in tail;
      if i > 0 { assert r[i] == tail[i - 1]; }
    }
  }

  /** The set in ascending order: what `sort.Strings` makes of a map's keys. */
  ghost function Sorted(s: set<string>): (r: seq<string>)
    ensures Ascending(r)
    ensures forall x :: x in r <==> x in s
    decreases |s|
  {
    if s == {} then []
    else
      var m := Least(s);
      var tail := Sorted(s - {m});
      AscendingCons(m, tail);
      assert forall x :: x in [m] + tail <==> x == m || x in tail;
      [m] + tail
  }

  /** Two ascending sequences with the same elements are equal, so any correct sort gives Sorted. */
  lemma HeadIsLeast(a: seq<string>, x: string)
    requires Ascending(a) && x in a
    ensures x == a[0] || Less(a[0], x)
    ensures x in a[1..] <==> x != a[0]
  {
    var i :| 0 <= i < |a| && a[i] == x;
    LessIrreflexive(a[0]);
    if i > 0 { assert a[1..][i - 1] == x && Less(a[0], a[i]); }
    if x in a[1..] {
      var k :| 0 <= k < |a| - 1 && a[1..][k] == x;
      assert Less(a[0], a[k + 1]);
    }
  }

  lemma {:induction false} AscendingUnique(a: seq<string>, b: seq<string>)
    requires Ascending(a) && Ascending(b)
    requires forall x :: x in a <==> x in b
    ensures a == b
  {
    assert a != [] ==> a[0] in a && a[0] in b;
    assert b != [] ==> b[0] in b && b[0] in a;
    if a != [] {
      HeadIsLeast(a, b[0]);
      HeadIsLeast(b, a[0]);
      if a[0] != b[0] {
        LessAsymmetric(a[0], b[0]);
      }
      forall x ensures x in a[1..] <==> x in b[1..] {
        if x in a { HeadIsLeast(a, x); HeadIsLeast(b, x); }
        assert x in a[1..] ==> x in a;
        assert x in b[1..] ==> x in b;
      }
      AscendingUnique(a[1..], b[1..]);
      assert a == [a[0]] + a[1..] && b == [b[0]] + b[1..];
    }
  }

  /** sort.Strings over the keys of a map: one insertion at a time. */
  method SortKeys(keys: set<string>) returns (r: seq<string>)
    ensures r == Sorted(keys)
  {
    r := [];
    var rest := keys;
    while rest != {}
      invariant rest <= keys && Ascending(r)
      invariant forall x :: x in keys <==> x in rest || x in r
      invariant forall x :: x in r ==> x !in rest
      decreases rest
    {
      var x :| x in rest;
      var at := 0;
      while at < |r| && Less(r[at], x)
        invariant 0 <= at <= |r|
        invariant forall i :: 0 <= i < at ==> Less(r[i], x)
      {
        at := at + 1;
      }
      if at < |r| {
        LessTotal(r[at], x);
        assert r[at] in r;
        forall i | at <= i < |r| ensures Less(x, r[i]) {
          if i > at { LessTransitive(x, r[at], r[i]); }
        }
      }
      r, rest := r[..at] + [x] + r[at..], rest - {x};
    }
    AscendingUnique(r, Sorted(keys));
  }

  function Insert(x: string, s: seq<string>): (r: seq<string>)
    ensures multiset(r) == multiset(s) + multiset{x}
  {
    if s == [] then [x]
    else if Less(x, s[0]) then [x] + s
    else
      assert s == [s[0]] + s[1..];
      [s[0]] + Insert(x, s[1..])
  }

  /** sort.Strings over a list, which may hold a string twice. */
  function SortList(s: seq<string>): (r: seq<string>)
    ensures multiset(r) == multiset(s)
  {
    if s == [] then []
    else
      assert s == [s[0]] + s[1..];
      Insert(s[0], SortList(s[1..]))
  }

  ghost predicate NonDescending(s: seq<string>) { forall i, j :: 0 <= i < j < |s| ==> !Less(s[j], s[i]) }

  lemma InsertedBefore(x: string, s: seq<string>)
    requires NonDescending(s) && s != [] && Less(x, s[0])
    ensures NonDescending([x] + s)
  {
    LessAsymmetric(x, s[0]);
    hide Less;
    forall j | 0 <= j < |s| ensures !Less(s[j], x) {
      if j > 0 && Less(s[j], x) { LessTransitive(s[j], x, s[0]); }
    }
  }

  lemma InsertedAfter(m: string, tail: seq<string>)
    requires NonDescending(tail) && forall y :: y in tail ==> !Less(y, m)
    ensures NonDescending([m] + tail)
  {
    hide Less;
    var r := [m] + tail;
    forall i, j | 0 <= i < j < |r| ensures !Less(r[j], r[i]) {
      assert r[j] == tail[j - 1] && tail[j - 1] in tail;
      if i > 0 { assert r[i] == tail[i - 1]; }
    }
  }

  lemma HeadComesFirst(s: seq<string>, y: string)
    requires NonDescending(s) && y in s
    ensures !Less(y, s[0])
  {
    LessIrreflexive(s[0]);
    hide Less;
  }

  lemma {:induction false} InsertNonDescending(x: string, s: seq<string>)
    requires NonDescending(s)
    ensures NonDescending(Insert(x, s)) && forall y :: y in Insert(x, s) <==> y == x || y in s
  {
    hide Less;
    if s != [] {
      if Less(x, s[0]) {
        InsertedBefore(x, s);
      } else {
        InsertNonDescending(x, s[1..]);
        assert s == [s[0]] + s[1..];
        forall y | y in Insert(x, s[1..]) ensures !Less(y, s[0]) {
          if y != x { HeadComesFirst(s, y); }
        }
        InsertedAfter(s[0], Insert(x, s[1..]));
      }
    }
  }

  lemma {:induction false} SortNonDescending(s: seq<string>)
    ensures NonDescending(SortList(s)) && forall y :: y in SortList(s) <==> y in s
  {
    hide Insert, Less;
    if s != [] {
      SortNonDescending(s[1..]);
      assert s == [s[0]] + s[1..];
      hide NonDescending;
      InsertNonDescending(s[0], SortList(s[1..]));
    }
  }

  lemma SameHead(a: seq<string>, b: seq<string>)
    requires NonDescending(a) && NonDescending(b) && multiset(a) == multiset(b) && a != [] && b != []
    ensures a[0] == b[0] && multiset(a[1..]) == multiset(b[1..])
  {
    hide Less, NonDescending;
    assert a[0] in multiset(b) && b[0] in multiset(a);
    HeadComesFirst(a, b[0]);
    HeadComesFirst(b, a[0]);
    LessTotal(a[0], b[0]);
    assert a == [a[0]] + a[1..] && b == [b[0]] + b[1..];
    assert multiset(a[1..]) == multiset(a) - multiset{a[0]};
  }

  lemma TailNonDescending(a: seq<string>)
    requires NonDescending(a) && a != []
    ensures NonDescending(a[1..])
  {
    hide Less;
  }

  /** Any correct sort gives SortList's order. */
  lemma {:induction false} NonDescendingUnique(a: seq<string>, b: seq<string>)
    requires NonDescending(a) && NonDescending(b) && multiset(a) == multiset(b)
    ensures a == b
  {
    hide *;
    assert |a| == |multiset(a)| == |multiset(b)| == |b|;
    if a != [] {
      SameHead(a, b);
      TailNonDescending(a);
      TailNonDescending(b);
      NonDescendingUnique(a[1..], b[1..]);
      assert a == [a[0]] + a[1..] && b == [b[0]] + b[1..];
    }
  }
}
