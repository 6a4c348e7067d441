/** Name similarity (pkg/scanner/typosquat.go): the rolling two-row edit distance and the one-extra-character check. */
module Typosquat {

  newtype Byte = x: int | 0 <= x < 256

  type Name = seq<Byte>

  function Min3(a: int, b: int, c: int): (m: int)
    ensures m <= a && m <= b && m <= c
    ensures m == a || m == b || m == c
  {
    if a < b then (if a < c then a else c)
    else if b < c then b
    else c
  }

  function Cost(x: Byte, y: Byte): int { if x == y then 0 else 1 }

  function Init(a: Name): (r: Name)
    requires a != []
    ensures |r| == |a| - 1 && a == r + [Last(a)]
  {
    a[..|a| - 1]
  }

  function Last(a: Name): Byte
    requires a != []
  {
    a[|a| - 1]
  }

  /** The recursive edit distance. */
  function Dist(a: Name, b: Name): int
    decreases |a| + |b|
  {
    if |a| == 0 then |b|
    else if |b| == 0 then |a|
    else Min3(Dist(Init(a), b) + 1, Dist(a, Init(b)) + 1, Dist(Init(a), Init(b)) + Cost(Last(a), Last(b)))
  }

  // ---- The rolling rows ----

  /** row[j] is the distance between a's first i bytes and b's first j, for each j below n. */
  ghost predicate RowIs(row: seq<int>, a: Name, i: int, b: Name, n: int) {
    && 0 <= i <= |a| && n <= |row| && n <= |b| + 1
    && forall j :: 0 <= j < n ==> row[j] == Dist(a[..i], b[..j])
  }

  lemma {:induction false} Step(a: Name, b: Name)
    requires a != [] && b != []
    ensures var x, y, z := Dist(Init(a), b) + 1, Dist(a, Init(b)) + 1, Dist(Init(a), Init(b)) + Cost(Last(a), Last(b));
      Dist(a, b) == Min3(x, y, z) && Dist(a, b) <= x && Dist(a, b) <= y && Dist(a, b) <= z
  {
  }

  lemma Cell(a: Name, b: Name, i: int, j: int)
    requires 0 < i <= |a| && 0 < j <= |b|
    ensures Dist(a[..i], b[..j]) == Min3(Dist(a[..i - 1], b[..j]) + 1, Dist(a[..i], b[..j - 1]) + 1,
                                         Dist(a[..i - 1], b[..j - 1]) + Cost(a[i - 1], b[j - 1]))
  {
    hide Dist;
    Step(a[..i], b[..j]);
    assert Init(a[..i]) == a[..i - 1] && Init(b[..j]) == b[..j - 1];
  }

  lemma NextCell(prev: seq<int>, before: seq<int>, row: seq<int>, a: Name, b: Name, i: int, j: int)
    requires 0 < i <= |a| && 0 < j <= |b| && |prev| == |before| == |row| == |b| + 1
    requires RowIs(prev, a, i - 1, b, |b| + 1) && RowIs(before, a, i, b, j)
    requires row == before[j := Min3(prev[j] + 1, before[j - 1] + 1, prev[j - 1] + Cost(a[i - 1], b[j - 1]))]
    ensures RowIs(row, a, i, b, j + 1)
  {
    hide Dist;
    Cell(a, b, i, j);
    hide Min3, Cost;
  }

  /** levenshtein: only two rows of the table exist at a time, and they swap. */
  method Levenshtein(a: Name, b: Name) returns (d: int)
    ensures d == Dist(a, b)
  {
    if |a| == 0 {
      return |b|;
    }
    if |b| == 0 {
      return |a|;
    }
    var prev := new int[|b| + 1];
    var curr := new int[|b| + 1];
    for j := 0 to |b| + 1
      invariant forall k :: 0 <= k < j ==> prev[k] == k
    {
      prev[j] := j;
    }
    assert RowIs(prev[..], a, 0, b, |b| + 1);
    for i := 1 to |a| + 1
      invariant prev != curr && prev.Length == curr.Length == |b| + 1
      invariant fresh(prev) && fresh(curr)
      invariant RowIs(prev[..], a, i - 1, b, |b| + 1)
    {
      curr[0] := i;
      assert RowIs(curr[..], a, i, b, 1);
      hide Dist, RowIs;
      for j := 1 to |b| + 1
        invariant RowIs(prev[..], a, i - 1, b, |b| + 1)
        invariant RowIs(curr[..], a, i, b, j)
      {
        var cost := 1;
        if a[i - 1] == b[j - 1] {
          cost := 0;
        }
        ghost var before := curr[..];
        curr[j] := Min3(prev[j] + 1, curr[j - 1] + 1, prev[j - 1] + cost);
        assert curr[..] == before[j := curr[j]];
        NextCell(prev[..], before, curr[..], a, b, i, j);
      }
      prev, curr := curr, prev;
    }
    assert a[..|a|] == a && b[..|b|] == b && prev[|b|] == prev[..][|b|];
    return prev[|b|];
  }

  // ---- A metric ----

  lemma {:induction false} Bounds(a: Name, b: Name)
    ensures |a| - |b| <= Dist(a, b) && |b| - |a| <= Dist(a, b)
    ensures Dist(a, b) <= if |a| >= |b| then |a| else |b|
    decreases |a| + |b|
  {
    if a != [] && b != [] {
      Bounds(Init(a), b);
      Bounds(a, Init(b));
      Bounds(Init(a), Init(b));
    }
  }

  lemma {:induction false} Symmetric(a: Name, b: Name)
    ensures Dist(a, b) == Dist(b, a)
    decreases |a| + |b|
  {
    if a != [] && b != [] {
      Symmetric(Init(a), b);
      Symmetric(a, Init(b));
      Symmetric(Init(a), Init(b));
    }
  }

  lemma {:induction false} ZeroIffEqual(a: Name, b: Name)
    ensures Dist(a, b) == 0 <==> a == b
    decreases |a| + |b|
  {
    Bounds(a, b);
    if a != [] && b != [] {
      Bounds(Init(a), b);
      Bounds(a, Init(b));
      Bounds(Init(a), Init(b));
      ZeroIffEqual(Init(a), Init(b));
      assert a == Init(a) + [Last(a)] && b == Init(b) + [Last(b)];
    }
  }

  lemma {:induction false} Triangle(a: Name, b: Name, c: Name)
    ensures Dist(a, c) <= Dist(a, b) + Dist(b, c)
    decreases |a| + |b| + |c|
  {
    Bounds(a, b);
    Bounds(b, c);
    Bounds(a, c);
    hide Dist, Init, Last;
    if a != [] && b != [] && c != [] {
      Step(a, b);
      Step(b, c);
      Step(a, c);
      Triangle(Init(a), b, c);
      Triangle(a, b, Init(c));
      Triangle(a, Init(b), c);
      Triangle(Init(a), Init(b), c);
      Triangle(a, Init(b), Init(c));
      Triangle(Init(a), Init(b), Init(c));
      Triangle(Init(a), b, Init(c));
    }
  }

  // ---- The distance is the least number of single-byte edits ----

  /** b is a with the part x between p and s replaced by y, where x and y hold at most one byte. */
  ghost predicate EditAt(a: Name, b: Name, p: Name, x: Name, y: Name, s: Name) {
    a == p + x + s && b == p + y + s && |x| <= 1 && |y| <= 1
  }

  /** One insertion, deletion or substitution. */
  ghost predicate OneEdit(a: Name, b: Name) { exists p, x, y, s :: EditAt(a, b, p, x, y, s) }

  ghost predicate Edits(chain: seq<Name>) {
    |chain| > 0 && forall i :: 0 <= i < |chain| - 1 ==> OneEdit(chain[i], chain[i + 1])
  }

  ghost predicate EditsFromTo(chain: seq<Name>, a: Name, b: Name) {
    Edits(chain) && chain[0] == a && chain[|chain| - 1] == b
  }

  lemma {:induction false} SuffixKeeps(a: Name, b: Name, s: Name)
    ensures Dist(a + s, b + s) <= Dist(a, b)
    decreases |s|
  {
    if s == [] {
      assert a + s == a && b + s == b;
    } else {
      SuffixKeeps(a, b, Init(s));
      assert Init(a + s) == a + Init(s) && Init(b + s) == b + Init(s);
    }
  }

  lemma {:induction false} PrefixKeeps(p: Name, a: Name, b: Name)
    ensures Dist(p + a, p + b) <= Dist(a, b)
    decreases |a| + |b|
  {
    hide Dist;
    DistToEmpty(a);
    DistToEmpty(b);
    DistToEmpty(p + a);
    DistToEmpty(p + b);
    if a == [] && b == [] {
      ZeroIffEqual(p + a, p + b);
    } else if a == [] {
      PrefixKeeps(p, a, Init(b));
      DistToEmpty(Init(b));
      InitOfSum(p, b);
      if p != [] { Step(p + a, p + b); }
    } else if b == [] {
      PrefixKeeps(p, Init(a), b);
      DistToEmpty(Init(a));
      InitOfSum(p, a);
      if p != [] { Step(p + a, p + b); }
    } else {
      PrefixKeeps(p, Init(a), b);
      PrefixKeeps(p, a, Init(b));
      PrefixKeeps(p, Init(a), Init(b));
      InitOfSum(p, a);
      InitOfSum(p, b);
      Step(a, b);
      Step(p + a, p + b);
    }
  }

  lemma InitOfSum(p: Name, a: Name)
    requires a != []
    ensures p + a != [] && Init(p + a) == p + Init(a) && Last(p + a) == Last(a)
  {
  }

  lemma OneEditIsClose(a: Name, b: Name)
    requires OneEdit(a, b)
    ensures Dist(a, b) <= 1
  {
    hide Dist;
    var p, x, y, s :| EditAt(a, b, p, x, y, s);
    assert a == p + (x + s) && b == p + (y + s);
    hide EditAt;
    Bounds(x, y);
    SuffixKeeps(x, y, s);
    PrefixKeeps(p, x + s, y + s);
  }

  lemma {:induction false} ChainsAreLong(chain: seq<Name>)
    requires Edits(chain)
    ensures Dist(chain[0], chain[|chain| - 1]) <= |chain| - 1
    decreases |chain|
  {
    ZeroIffEqual(chain[0], chain[0]);
    if |chain| > 1 {
      var rest := chain[1..];
      forall i | 0 <= i < |rest| - 1 ensures OneEdit(rest[i], rest[i + 1]) {
        assert OneEdit(chain[i + 1], chain[i + 1 + 1]);
      }
      ChainsAreLong(rest);
      assert OneEdit(chain[0], chain[0 + 1]);
      OneEditIsClose(chain[0], chain[1]);
      Triangle(chain[0], chain[1], chain[|chain| - 1]);
    }
  }

  lemma Prepended(a: Name, chain: seq<Name>)
    requires Edits(chain) && OneEdit(a, chain[0])
    ensures Edits([a] + chain)
  {
    var r := [a] + chain;
    forall i | 0 <= i < |r| - 1 ensures OneEdit(r[i], r[i + 1]) {
      if i > 0 { assert r[i] == chain[i - 1] && r[i + 1] == chain[i - 1 + 1]; }
    }
  }

  lemma Appended(chain: seq<Name>, b: Name)
    requires Edits(chain) && OneEdit(chain[|chain| - 1], b)
    ensures Edits(chain + [b])
  {
    var r := chain + [b];
    forall i | 0 <= i < |r| - 1 ensures OneEdit(r[i], r[i + 1]) {
      if i < |chain| - 1 { assert OneEdit(chain[i], chain[i + 1]); }
    }
  }

  lemma ExtendedEdit(a: Name, b: Name, z: Byte)
    requires OneEdit(a, b)
    ensures OneEdit(a + [z], b + [z])
  {
    var p, x, y, s :| EditAt(a, b, p, x, y, s);
    assert EditAt(a + [z], b + [z], p, x, y, s + [z]);
  }

  /** Every string of the chain with z behind it. */
  ghost function Extended(chain: seq<Name>, z: Byte): (r: seq<Name>)
    ensures |r| == |chain| && forall i :: 0 <= i < |r| ==> r[i] == chain[i] + [z]
  {
    seq(|chain|, i requires 0 <= i < |chain| => chain[i] + [z])
  }

  lemma ExtendedChain(chain: seq<Name>, z: Byte)
    requires Edits(chain)
    ensures Edits(Extended(chain, z))
  {
    forall i | 0 <= i < |chain| - 1 ensures OneEdit(Extended(chain, z)[i], Extended(chain, z)[i + 1]) {
      ExtendedEdit(chain[i], chain[i + 1], z);
    }
  }

  lemma DropEdit(a: Name)
    requires a != []
    ensures OneEdit(a, Init(a)) && OneEdit(Init(a), a)
  {
    assert EditAt(a, Init(a), Init(a), [Last(a)], [], []);
    assert EditAt(Init(a), a, Init(a), [], [Last(a)], []);
  }

  lemma ReplaceEdit(p: Name, x: Byte, y: Byte)
    ensures OneEdit(p + [x], p + [y])
  {
    assert EditAt(p + [x], p + [y], p, [x], [y], []);
  }

  lemma {:induction false} ChainExists(a: Name, b: Name) returns (chain: seq<Name>)
    ensures |chain| > 0 && EditsFromTo(chain, a, b) && |chain| - 1 == Dist(a, b)
    decreases |a| + |b|
  {
    hide Dist, OneEdit, Edits;
    DistToEmpty(a);
    DistToEmpty(b);
    if a == [] && b == [] {
      chain := [a];
      NoEdits(a);
      return;
    }
    if a != [] && b != [] { Step(a, b); }
    if a != [] && (b == [] || Dist(a, b) == Dist(Init(a), b) + 1) {
      var c := ChainExists(Init(a), b);
      DistToEmpty(Init(a));
      DropEdit(a);
      Prepended(a, c);
      chain := [a] + c;
    } else if a == [] || Dist(a, b) == Dist(a, Init(b)) + 1 {
      var c := ChainExists(a, Init(b));
      DistToEmpty(Init(b));
      DropEdit(b);
      Appended(c, b);
      chain := c + [b];
    } else {
      var c := ChainExists(Init(a), Init(b));
      ExtendedChain(c, Last(a));
      chain := Extended(c, Last(a));
      if Last(a) != Last(b) {
        ReplaceEdit(Init(b), Last(a), Last(b));
        Appended(chain, b);
        chain := chain + [b];
      }
    }
  }

  lemma NoEdits(a: Name)
    ensures Edits([a])
  {
  }

  lemma DistToEmpty(a: Name)
    ensures Dist(a, []) == |a| && Dist([], a) == |a|
  {
  }

  /** levenshtein's meaning, without its table: n edits are enough exactly when n is at least the distance. */
  lemma LeastEdits(a: Name, b: Name, n: int)
    ensures Dist(a, b) <= n <==> exists chain :: EditsFromTo(chain, a, b) && |chain| - 1 <= n
  {
    if Dist(a, b) <= n {
      var c := ChainExists(a, b);
    }
    if chain :| EditsFromTo(chain, a, b) && |chain| - 1 <= n {
      ChainsAreLong(chain);
    }
  }

  // ---- One extra character ----

  function Without(a: Name, k: int): Name
    requires 0 <= k < |a|
  {
    a[..k] + a[k + 1..]
  }

  lemma WithoutAt(a: Name, k: int)
    requires 0 <= k < |a|
    ensures |Without(a, k)| == |a| - 1
    ensures forall m :: 0 <= m < |a| - 1 ==> Without(a, k)[m] == if m < k then a[m] else a[m + 1]
  {
  }

  predicate OneExtra(a: Name, b: Name) { exists k :: 0 <= k < |a| && b == Without(a, k) }

  /** a and b agree up to i, where a has its extra byte if it has one, and differ after it at m. */
  lemma NoExtra(a: Name, b: Name, i: int, m: int)
    requires |a| == |b| + 1 && 0 <= i <= m < |b| && a[..i] == b[..i]
    requires a[i] != b[i] && a[m + 1] != b[m]
    ensures !OneExtra(a, b)
  {
    if k :| 0 <= k < |a| && b == Without(a, k) {
      WithoutAt(a, k);
      hide Without;
    }
  }

  /** The two indices so far: level until a byte of a is passed over at `at`, then one apart. */
  ghost predicate Scanned(a: Name, b: Name, i: int, j: int, skipped: bool, at: int) {
    && 0 <= j <= |b| && i <= |a| && i == (if skipped then j + 1 else j) && 0 <= at <= j
    && (if skipped then
          at < |b| && a[at] != b[at] && a[..at] == b[..at] && (forall k :: at <= k < j ==> a[k + 1] == b[k])
        else at == j && a[..j] == b[..j])
  }

  lemma ScanMatch(a: Name, b: Name, i: int, j: int, skipped: bool, at: int)
    requires Scanned(a, b, i, j, skipped, at) && i < |a| && j < |b| && a[i] == b[j]
    ensures Scanned(a, b, i + 1, j + 1, skipped, if skipped then at else at + 1)
  {
    assert a[..i + 1] == a[..i] + [a[i]] && b[..j + 1] == b[..j] + [b[j]];
  }

  lemma ScanEnds(a: Name, b: Name, i: int, j: int, skipped: bool, at: int)
    requires |a| == |b| + 1 && Scanned(a, b, i, j, skipped, at) && (i == |a| || j == |b|)
    ensures OneExtra(a, b)
  {
    assert j == |b|;
    WithoutAt(a, at);
    hide Without;
    forall m | 0 <= m < |b| ensures Without(a, at)[m] == b[m] {
      if m < at { assert a[..at][m] == b[..at][m]; }
    }
    assert b == Without(a, at);
  }

  method CheckExtraChar(a: Name, b: Name) returns (r: bool)
    ensures r <==> OneExtra(a, b)
    ensures r ==> Dist(a, b) == 1
  {
    if |a| != |b| + 1 {
      return false;
    }
    hide Dist, OneExtra;
    var i, j := 0, 0;
    var skipped := false;
    ghost var at := 0;
    while i < |a| && j < |b|
      invariant Scanned(a, b, i, j, skipped, at)
      decreases |a| - i
    {
      if a[i] == b[j] {
        ScanMatch(a, b, i, j, skipped, at);
        if !skipped { at := at + 1; }
        j := j + 1;
      } else if !skipped {
        skipped := true;
      } else {
        NoExtra(a, b, at, j);
        return false;
      }
      i := i + 1;
    }
    ScanEnds(a, b, i, j, skipped, at);
    OneExtraIsClose(a, b);
    return true;
  }

  lemma OneExtraIsClose(a: Name, b: Name)
    requires OneExtra(a, b)
    ensures Dist(a, b) == 1
  {
    var k :| 0 <= k < |a| && b == Without(a, k);
    assert EditAt(a, b, a[..k], [a[k]], [], a[k + 1..]);
    OneEditIsClose(a, b);
    Bounds(a, b);
  }
}
