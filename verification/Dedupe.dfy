/** mergeAdvisories (pkg/grade/dedupe.go): findings that share an identifier become one, through a union-find. */
module Dedupe {
  import opened GradeTypes
  import opened Ordering

  // ---- What "the same vulnerability" means ----

  function RawIds(f: Finding): set<string> { {f.id} + set a | a in f.aliases }

  /** The identifiers that link findings: the empty string links nothing. */
  function Ids(f: Finding): set<string> { RawIds(f) - {""} }

  predicate Shares(a: Finding, b: Finding) { Ids(a) * Ids(b) != {} }

  ghost predicate Path(fs: seq<Finding>, p: seq<int>) {
    && |p| > 0
    && (forall k :: 0 <= k < |p| ==> 0 <= p[k] < |fs|)
    && forall k :: 0 <= k < |p| - 1 ==> Shares(fs[p[k]], fs[p[k + 1]])
  }

  /** Findings i and j are connected by a chain of shared identifiers. */
  ghost predicate Linked(fs: seq<Finding>, i: int, j: int) {
    exists p :: Path(fs, p) && p[0] == i && p[|p| - 1] == j
  }

  lemma LinkedReflexive(fs: seq<Finding>, i: int)
    requires 0 <= i < |fs|
    ensures Linked(fs, i, i)
  {
    assert Path(fs, [i]);
  }

  lemma LinkedStep(fs: seq<Finding>, i: int, j: int)
    requires 0 <= i < |fs| && 0 <= j < |fs| && Shares(fs[i], fs[j])
    ensures Linked(fs, i, j)
  {
    assert Path(fs, [i, j]);
  }

  lemma LinkedTransitive(fs: seq<Finding>, i: int, j: int, k: int)
    requires Linked(fs, i, j) && Linked(fs, j, k)
    ensures Linked(fs, i, k)
  {
    var p :| Path(fs, p) && p[0] == i && p[|p| - 1] == j;
    var q :| Path(fs, q) && q[0] == j && q[|q| - 1] == k;
    var r := p + q[1..];
    forall x | 0 <= x < |r| - 1 ensures Shares(fs[r[x]], fs[r[x + 1]]) {
      if x == |p| - 1 {
        assert r[x] == q[0] && r[x + 1] == q[1];
      } else if x >= |p| {
        assert r[x] == q[x - |p| + 1] && r[x + 1] == q[x - |p| + 2];
      }
    }
    assert Path(fs, r) && r[0] == i && r[|r| - 1] == k;
  }

  lemma {:induction false} LinkedSymmetric(fs: seq<Finding>, i: int, j: int)
    requires Linked(fs, i, j)
    ensures Linked(fs, j, i)
  {
    var p :| Path(fs, p) && p[0] == i && p[|p| - 1] == j;
    var r := seq(|p|, k requires 0 <= k < |p| => p[|p| - 1 - k]);
    forall k | 0 <= k < |r| - 1 ensures Shares(fs[r[k]], fs[r[k + 1]]) {
      assert Shares(fs[p[|p| - 2 - k]], fs[p[|p| - 1 - k]]);
      assert Ids(fs[r[k]]) * Ids(fs[r[k + 1]]) == Ids(fs[r[k + 1]]) * Ids(fs[r[k]]);
    }
    assert Path(fs, r) && r[0] == j && r[|r| - 1] == i;
  }

  // ---- The merged finding of a group: it depends on the set of members, never on their order ----

  function SeverityRank(s: Severity): int {
    match s case Critical => 4 case High => 3 case Medium => 2 case Low => 1 case Unrated => 0
  }

  function ReachRank(r: Reach): int {
    match r case Called => 4 case Undetermined => 3 case Imported => 2 case Required => 1
  }

  ghost predicate HasSeverity(g: set<Finding>, s: Severity) { exists f :: f in g && f.severity == s }

  ghost predicate HasReach(g: set<Finding>, r: Reach) { exists f :: f in g && f.reach == r }

  ghost predicate HasExploited(g: set<Finding>) { exists f :: f in g && f.exploited }

  ghost predicate HasFailedLookup(g: set<Finding>) { exists f :: f in g && f.lookupFailed }

  ghost function TopSeverity(g: set<Finding>): Severity {
    if HasSeverity(g, Critical) then Critical
    else if HasSeverity(g, High) then High
    else if HasSeverity(g, Medium) then Medium
    else if HasSeverity(g, Low) then Low
    else Unrated
  }

  ghost function TopReach(g: set<Finding>): Reach {
    if HasReach(g, Called) then Called
    else if HasReach(g, Undetermined) then Undetermined
    else if HasReach(g, Imported) then Imported
    else Required
  }

  predicate IsGo(id: string) { "GO-" <= id }

  /** The representative's ID: a Go advisory before any other, then the smallest. */
  ghost function RepresentativeId(ids: set<string>): string
    requires ids != {}
  {
    var go := set id | id in ids && IsGo(id);
    if go != {} then Least(go) else Least(ids)
  }

  ghost function AllIds(g: set<Finding>): set<string> {
    set f, x | f in g && x in RawIds(f) :: x
  }

  ghost function MergeMany(g: set<Finding>): Finding
    requires g != {}
  {
    var own := OwnIds(g);
    var some :| some in g;
    assert some.id in own;
    var rep := RepresentativeId(own);
    Finding(rep, Sorted(AllIds(g) - {rep}), TopSeverity(g), TopReach(g),
            TopSeverity(g) == Unrated && HasFailedLookup(g), HasExploited(g))
  }

  ghost function Class(fs: seq<Finding>, i: int): set<Finding> {
    set j | 0 <= j < |fs| && Linked(fs, i, j) :: fs[j]
  }

  ghost predicate Unlinked(fs: seq<Finding>, i: int) {
    forall j :: 0 <= j < |fs| && Linked(fs, i, j) ==> j == i
  }

  /** The finding that stands for i's connected component: a lone finding is returned untouched. */
  ghost function GroupValue(fs: seq<Finding>, i: int): Finding
    requires 0 <= i < |fs|
  {
    if Unlinked(fs, i) then fs[i]
    else
      LinkedReflexive(fs, i);
      assert fs[i] in Class(fs, i);
      MergeMany(Class(fs, i))
  }

  ghost predicate Leader(fs: seq<Finding>, i: int) {
    forall j :: 0 <= j < i ==> !Linked(fs, j, i)
  }

  ghost function LeadersUpTo(fs: seq<Finding>, n: nat): (l: seq<int>)
    requires n <= |fs|
    ensures forall i :: i in l <==> 0 <= i < n && Leader(fs, i)
    ensures forall a, b :: 0 <= a < b < |l| ==> l[a] < l[b]
  {
    if n == 0 then []
    else
      var before := LeadersUpTo(fs, n - 1);
      assert forall a :: 0 <= a < |before| ==> before[a] in before;
      if Leader(fs, n - 1) then before + [n - 1] else before
  }

  /** One finding per component, in the order in which the components first appear. */
  ghost function Merged(fs: seq<Finding>): seq<Finding> {
    var l := LeadersUpTo(fs, |fs|);
    seq(|l|, k requires 0 <= k < |l| => assert l[k] in l; GroupValue(fs, l[k]))
  }

  // ---- The union-find forest ----

  /** parent is an acyclic forest: following it strictly lowers depth. */
  ghost predicate Forest(parent: seq<int>, depth: seq<nat>) {
    && |parent| == |depth|
    && forall x :: 0 <= x < |parent| ==>
        0 <= parent[x] < |parent| && (parent[x] != x ==> depth[parent[x]] < depth[x])
  }

  ghost function Root(parent: seq<int>, depth: seq<nat>, x: int): (r: int)
    requires Forest(parent, depth) && 0 <= x < |parent|
    ensures 0 <= r < |parent| && parent[r] == r
    decreases depth[x]
  {
    if parent[x] == x then x else Root(parent, depth, parent[x])
  }

  lemma {:induction false} HalvingKeepsRoots(parent: seq<int>, depth: seq<nat>, x: int, y: int)
    requires Forest(parent, depth) && 0 <= x < |parent| && 0 <= y < |parent|
    requires Forest(parent[x := parent[parent[x]]], depth)
    ensures Root(parent[x := parent[parent[x]]], depth, y) == Root(parent, depth, y)
    decreases depth[y]
  {
    var after := parent[x := parent[parent[x]]];
    if after[y] != y {
      HalvingKeepsRoots(parent, depth, x, after[y]);
    }
    assert Root(parent, depth, y) == Root(parent, depth, after[y]);
  }

  ghost function DepthAfterUnion(parent: seq<int>, depth: seq<nat>, low: int, high: int): seq<nat>
    requires Forest(parent, depth) && 0 <= low < |parent| && 0 <= high < |parent|
  {
    seq(|depth|, x requires 0 <= x < |depth| =>
      if Root(parent, depth, x) == low then depth[x] + depth[high] + 1 else depth[x])
  }

  lemma {:induction false} UnionRoots(parent: seq<int>, depth: seq<nat>, low: int, high: int)
    requires Forest(parent, depth) && 0 <= low < |parent| && 0 <= high < |parent|
    requires parent[low] == low && parent[high] == high && low != high
    ensures Forest(parent[low := high], DepthAfterUnion(parent, depth, low, high))
    ensures forall y :: 0 <= y < |parent| ==>
      Root(parent[low := high], DepthAfterUnion(parent, depth, low, high), y)
      == if Root(parent, depth, y) == low then high else Root(parent, depth, y)
  {
    var after, deeper := parent[low := high], DepthAfterUnion(parent, depth, low, high);
    forall x | 0 <= x < |after| && after[x] != x ensures deeper[after[x]] < deeper[x] {
      if x != low { assert Root(parent, depth, x) == Root(parent, depth, parent[x]); }
    }
    forall y | 0 <= y < |parent|
      ensures Root(after, deeper, y) == if Root(parent, depth, y) == low then high else Root(parent, depth, y)
    {
      UnionRoot(parent, depth, low, high, y);
    }
  }

  lemma {:induction false} UnionRoot(parent: seq<int>, depth: seq<nat>, low: int, high: int, y: int)
    requires Forest(parent, depth) && 0 <= low < |parent| && 0 <= high < |parent| && 0 <= y < |parent|
    requires parent[low] == low && parent[high] == high && low != high
    requires Forest(parent[low := high], DepthAfterUnion(parent, depth, low, high))
    ensures Root(parent[low := high], DepthAfterUnion(parent, depth, low, high), y)
         == if Root(parent, depth, y) == low then high else Root(parent, depth, y)
    decreases depth[y]
  {
    if parent[y] != y {
      UnionRoot(parent, depth, low, high, parent[y]);
    }
  }

  /** find with path halving: the root is returned and no element's root changes. */
  method Find(parent: array<int>, ghost depth: seq<nat>, x0: int) returns (x: int)
    requires Forest(parent[..], depth) && 0 <= x0 < parent.Length
    modifies parent
    ensures Forest(parent[..], depth)
    ensures forall y :: 0 <= y < parent.Length ==> Root(parent[..], depth, y) == Root(old(parent[..]), depth, y)
    ensures x == Root(old(parent[..]), depth, x0) && 0 <= x < parent.Length && parent[x] == x
  {
    x := x0;
    while parent[x] != x
      invariant 0 <= x < parent.Length
      invariant Forest(parent[..], depth)
      invariant forall y :: 0 <= y < parent.Length ==> Root(parent[..], depth, y) == Root(old(parent[..]), depth, y)
      invariant Root(parent[..], depth, x) == Root(old(parent[..]), depth, x0)
      decreases depth[x]
    {
      ghost var before := parent[..];
      var grand := parent[parent[x]];
      parent[x] := grand;
      assert parent[..] == before[x := before[before[x]]];
      forall y | 0 <= y < parent.Length ensures Root(parent[..], depth, y) == Root(before, depth, y) {
        HalvingKeepsRoots(before, depth, x, y);
      }
      x := parent[x];
    }
  }

  // ---- mergeAdvisories ----

  /** Elements with the same root are linked: the union-find never joins two vulnerabilities. */
  ghost predicate Sound(fs: seq<Finding>, parent: seq<int>, depth: seq<nat>) {
    && Forest(parent, depth) && |parent| == |fs|
    && forall x, y :: 0 <= x < |fs| && 0 <= y < |fs| && Root(parent, depth, x) == Root(parent, depth, y) ==> Linked(fs, x, y)
  }

  /** owner names a finding that carries the identifier. */
  predicate OwnersCarry(fs: seq<Finding>, owner: map<string, int>) {
    forall id :: id in owner ==> id != "" && 0 <= owner[id] < |fs| && id in Ids(fs[owner[id]])
  }

  /** Finding i has the root of the owner of each of the identifiers listed. */
  ghost predicate Joined(parent: seq<int>, depth: seq<nat>, owner: map<string, int>, i: int, ids: set<string>)
    requires Forest(parent, depth)
  {
    0 <= i < |parent| && forall id :: id in ids && id != "" ==>
      id in owner && 0 <= owner[id] < |parent| && Root(parent, depth, i) == Root(parent, depth, owner[id])
  }

  lemma SoundAfterUnion(fs: seq<Finding>, parent: seq<int>, depth: seq<nat>, i: int, j: int, low: int, high: int)
    requires Sound(fs, parent, depth)
    requires 0 <= i < |fs| && 0 <= j < |fs| && Shares(fs[i], fs[j])
    requires low == Root(parent, depth, i) && high == Root(parent, depth, j) && low != high
    ensures Sound(fs, parent[low := high], DepthAfterUnion(parent, depth, low, high))
  {
    UnionRoots(parent, depth, low, high);
    LinkedStep(fs, i, j);
    LinkedSymmetric(fs, i, j);
    var after, deeper := parent[low := high], DepthAfterUnion(parent, depth, low, high);
    forall x, y | 0 <= x < |fs| && 0 <= y < |fs| && Root(after, deeper, x) == Root(after, deeper, y)
      ensures Linked(fs, x, y)
    {
      var rx, ry := Root(parent, depth, x), Root(parent, depth, y);
      if rx != ry {
        if rx == low {
          assert Linked(fs, x, i) && Linked(fs, j, y);
          LinkedTransitive(fs, x, i, j);
          LinkedTransitive(fs, x, j, y);
        } else {
          assert Linked(fs, x, j) && Linked(fs, i, y);
          LinkedTransitive(fs, x, j, i);
          LinkedTransitive(fs, x, i, y);
        }
      }
    }
  }

  ghost predicate Coarser(p0: seq<int>, d0: seq<nat>, p1: seq<int>, d1: seq<nat>) {
    && Forest(p0, d0) && Forest(p1, d1) && |p0| == |p1|
    && forall a, b :: 0 <= a < |p0| && 0 <= b < |p0| && Root(p0, d0, a) == Root(p0, d0, b) ==> Root(p1, d1, a) == Root(p1, d1, b)
  }

  /** parent[find(i)] = find(j) for two findings that share an identifier. */
  method Union(fs: seq<Finding>, parent: array<int>, ghost depth0: seq<nat>, i: int,
               j: int) returns (ghost depth: seq<nat>)
    requires 0 <= i < |fs| && 0 <= j < |fs| && Shares(fs[i], fs[j])
    requires parent.Length == |fs| && Sound(fs, parent[..], depth0)
    modifies parent
    ensures Sound(fs, parent[..], depth) && Coarser(old(parent[..]), depth0, parent[..], depth)
    ensures Root(parent[..], depth, i) == Root(parent[..], depth, j)
  {
    depth := depth0;
    var low := Find(parent, depth, i);
    var high := Find(parent, depth, j);
    ghost var before := parent[..];
    SameRootsSound(fs, old(parent[..]), before, depth);
    parent[low] := high;
    if low == high {
      assert parent[..] == before;
    } else {
      assert parent[..] == before[low := high];
      SoundAfterUnion(fs, before, depth, i, j, low, high);
      UnionRoots(before, depth, low, high);
      depth := DepthAfterUnion(before, depth, low, high);
    }
  }

  lemma SameRootsSound(fs: seq<Finding>, p0: seq<int>, p1: seq<int>, depth: seq<nat>)
    requires Sound(fs, p0, depth) && Forest(p1, depth) && |p1| == |p0|
    requires forall y :: 0 <= y < |p0| ==> Root(p1, depth, y) == Root(p0, depth, y)
    ensures Sound(fs, p1, depth)
  {
  }

  /** One identifier of finding i: it joins the identifier's owner, or becomes it. */
  method Join(fs: seq<Finding>, parent: array<int>, ghost depth0: seq<nat>, owner0: map<string, int>, i: int,
              id: string)
    returns (owner: map<string, int>, ghost depth: seq<nat>)
    requires 0 <= i < |fs| && id in Ids(fs[i])
    requires parent.Length == |fs| && Sound(fs, parent[..], depth0) && OwnersCarry(fs, owner0)
    modifies parent
    ensures Sound(fs, parent[..], depth) && OwnersCarry(fs, owner)
    ensures owner == if id in owner0 then owner0 else owner0[id := i]
    ensures Root(parent[..], depth, i) == Root(parent[..], depth, owner[id])
    ensures Coarser(old(parent[..]), depth0, parent[..], depth)
  {
    owner, depth := owner0, depth0;
    if id in owner {
      assert id in Ids(fs[i]) * Ids(fs[owner[id]]);
      depth := Union(fs, parent, depth0, i, owner[id]);
    } else {
      owner := owner[id := i];
    }
  }

  /** What a finding has joined stays joined when classes only grow and owners stay. */
  lemma JoinedKept(p0: seq<int>, d0: seq<nat>, o0: map<string, int>, p1: seq<int>, d1: seq<nat>, o1: map<string,
                   int>, x: int, ids: set<string>)
    requires Coarser(p0, d0, p1, d1) && Joined(p0, d0, o0, x, ids)
    requires forall id :: id in o0 ==> id in o1 && o1[id] == o0[id]
    ensures Joined(p1, d1, o1, x, ids)
  {
  }

  /** One identifier of finding i, with what earlier findings joined left in place. */
  method JoinNext(fs: seq<Finding>, parent: array<int>, ghost depth0: seq<nat>, owner0: map<string, int>, i: int,
                  id: string, ghost before: set<string>)
    returns (owner: map<string, int>, ghost depth: seq<nat>)
    requires 0 <= i < |fs| && (id == "" || id in Ids(fs[i]))
    requires parent.Length == |fs| && Sound(fs, parent[..], depth0) && OwnersCarry(fs, owner0)
    requires forall x :: 0 <= x < i ==> Joined(parent[..], depth0, owner0, x, Ids(fs[x]))
    requires Joined(parent[..], depth0, owner0, i, before)
    modifies parent
    ensures Sound(fs, parent[..], depth) && OwnersCarry(fs, owner)
    ensures forall x :: 0 <= x < i ==> Joined(parent[..], depth, owner, x, Ids(fs[x]))
    ensures Joined(parent[..], depth, owner, i, before + {id})
  {
    owner, depth := owner0, depth0;
    if id != "" {
      owner, depth := Join(fs, parent, depth, owner, i, id);
      forall x | 0 <= x < i ensures Joined(parent[..], depth, owner, x, Ids(fs[x])) {
        JoinedKept(old(parent[..]), depth0, owner0, parent[..], depth, owner, x, Ids(fs[x]));
      }
      JoinedKept(old(parent[..]), depth0, owner0, parent[..], depth, owner, i, before);
    }
  }

  /** Every identifier of finding i in turn. */
  method UniteFinding(fs: seq<Finding>, parent: array<int>, ghost depth0: seq<nat>, owner0: map<string, int>, i: int)
    returns (owner: map<string, int>, ghost depth: seq<nat>)
    requires 0 <= i < |fs|
    requires parent.Length == |fs| && Sound(fs, parent[..], depth0) && OwnersCarry(fs, owner0)
    requires forall x :: 0 <= x < i ==> Joined(parent[..], depth0, owner0, x, Ids(fs[x]))
    modifies parent
    ensures Sound(fs, parent[..], depth) && OwnersCarry(fs, owner)
    ensures forall x :: 0 <= x <= i ==> Joined(parent[..], depth, owner, x, Ids(fs[x]))
  {
    owner, depth := owner0, depth0;
    var ids := [fs[i].id] + fs[i].aliases;
    ghost var before: set<string> := {};
    assert Joined(parent[..], depth, owner, i, before);
    hide Sound, OwnersCarry;
    for k := 0 to |ids|
      invariant Sound(fs, parent[..], depth) && OwnersCarry(fs, owner)
      invariant forall x :: 0 <= x < i ==> Joined(parent[..], depth, owner, x, Ids(fs[x]))
      invariant before == set s | s in ids[..k]
      invariant Joined(parent[..], depth, owner, i, before)
    {
      assert ids[k] == "" || ids[k] in Ids(fs[i]);
      owner, depth := JoinNext(fs, parent, depth, owner, i, ids[k], before);
      before := before + {ids[k]};
      assert ids[..k + 1] == ids[..k] + [ids[k]];
    }
    assert ids[..|ids|] == ids;
    assert forall s :: s in Ids(fs[i]) ==> s in before;
  }

  /** The first loop: every identifier of every finding. */
  method Unite(fs: seq<Finding>, parent: array<int>) returns (ghost depth: seq<nat>)
    requires parent.Length == |fs| && forall i :: 0 <= i < |fs| ==> parent[i] == i
    modifies parent
    ensures Sound(fs, parent[..], depth)
    ensures forall x, y :: 0 <= x < |fs| && 0 <= y < |fs| ==>
      (Root(parent[..], depth, x) == Root(parent[..], depth, y) <==> Linked(fs, x, y))
  {
    depth := seq(|fs|, _ => 0);
    var owner: map<string, int> := map[];
    forall x | 0 <= x < |fs| ensures Linked(fs, x, x) { LinkedReflexive(fs, x); }
    for i := 0 to |fs|
      invariant Sound(fs, parent[..], depth) && OwnersCarry(fs, owner)
      invariant forall x :: 0 <= x < i ==> Joined(parent[..], depth, owner, x, Ids(fs[x]))
    {
      owner, depth := UniteFinding(fs, parent, depth, owner, i);
    }
    forall x, y | 0 <= x < |fs| && 0 <= y < |fs| && Linked(fs, x, y)
      ensures Root(parent[..], depth, x) == Root(parent[..], depth, y)
    {
      var p :| Path(fs, p) && p[0] == x && p[|p| - 1] == y;
      Complete(fs, parent[..], depth, owner, p);
    }
  }

  /** When every finding has joined its identifiers' owners, a chain of shared identifiers has one root. */
  lemma {:induction false} Complete(fs: seq<Finding>, parent: seq<int>, depth: seq<nat>, owner: map<string, int>,
                                    p: seq<int>)
    requires Forest(parent, depth) && |parent| == |fs| && Path(fs, p)
    requires forall x :: 0 <= x < |fs| ==> Joined(parent, depth, owner, x, Ids(fs[x]))
    ensures Root(parent, depth, p[0]) == Root(parent, depth, p[|p| - 1])
  {
    if |p| > 1 {
      assert Shares(fs[p[0]], fs[p[1]]);
      var id :| id in Ids(fs[p[0]]) * Ids(fs[p[1]]);
      assert Joined(parent, depth, owner, p[0], Ids(fs[p[0]])) && Joined(parent, depth, owner, p[1], Ids(fs[p[1]]));
      Complete(fs, parent, depth, owner, p[1..]);
    }
  }

  // ---- mergeGroup ----

  predicate RepBefore(a: string, b: string) {
    (IsGo(a) && !IsGo(b)) || (IsGo(a) == IsGo(b) && Less(a, b))
  }

  lemma RepresentativeIsFirst(ids: set<string>, x: string)
    requires x in ids && forall y :: y in ids ==> !RepBefore(y, x)
    ensures x == RepresentativeId(ids)
  {
    var rep := RepresentativeId(ids);
    var go := set id | id in ids && IsGo(id);
    if go != {} {
      assert rep in go;
      assert IsGo(x);
      assert x in go;
    } else {
      assert x !in go && rep !in go;
    }
  }

  lemma RepBeforeTransitive(a: string, b: string, c: string)
    requires RepBefore(a, b) && !RepBefore(c, b)
    ensures !RepBefore(c, a)
  {
    if RepBefore(c, a) {
      if IsGo(a) == IsGo(b) && IsGo(c) == IsGo(a) { LessTransitive(c, a, b); }
    }
  }

  ghost predicate InRange(fs: seq<Finding>, idx: seq<int>) {
    forall k :: 0 <= k < |idx| ==> 0 <= idx[k] < |fs|
  }

  ghost function Picked(fs: seq<Finding>, idx: seq<int>): (g: set<Finding>)
    requires InRange(fs, idx)
    ensures forall k :: 0 <= k < |idx| ==> fs[idx[k]] in g
    ensures |idx| > 0 ==> g != {}
  {
    assert |idx| > 0 ==> fs[idx[0]] in set k | 0 <= k < |idx| :: fs[idx[k]];
    set k | 0 <= k < |idx| :: fs[idx[k]]
  }

  lemma PickedGrows(fs: seq<Finding>, idx: seq<int>, k: nat)
    requires InRange(fs, idx) && k < |idx|
    ensures Picked(fs, idx[..k + 1]) == Picked(fs, idx[..k]) + {fs[idx[k]]}
  {
    forall x | x in Picked(fs, idx[..k]) ensures x in Picked(fs, idx[..k + 1]) {
      var j :| 0 <= j < k && fs[idx[j]] == x;
      assert idx[..k + 1][j] == idx[j];
    }
    assert idx[..k + 1][k] == idx[k];
    forall x | x in Picked(fs, idx[..k + 1]) && x != fs[idx[k]] ensures x in Picked(fs, idx[..k]) {
      var j :| 0 <= j < k + 1 && fs[idx[..k + 1][j]] == x;
      assert idx[..k][j] == idx[j];
    }
  }

  /** Adding a finding to a group replaces the severity or the reachability only by a higher one. */
  lemma TopGrows(g: set<Finding>, f: Finding)
    requires g != {}
    ensures TopSeverity(g + {f}) == if SeverityRank(f.severity) > SeverityRank(TopSeverity(g)) then f.severity else TopSeverity(g)
    ensures TopReach(g + {f}) == if ReachRank(f.reach) > ReachRank(TopReach(g)) then f.reach else TopReach(g)
    ensures HasExploited(g + {f}) == (HasExploited(g) || f.exploited)
    ensures HasFailedLookup(g + {f}) == (HasFailedLookup(g) || f.lookupFailed)
  {
    TopSeverityGrows(g, f);
    TopReachGrows(g, f);
    assert f in g + {f};
    hide TopSeverity, TopReach;
    if HasExploited(g) { var x :| x in g && x.exploited; assert x in g + {f}; }
    if HasFailedLookup(g) { var x :| x in g && x.lookupFailed; assert x in g + {f}; }
  }

  lemma TopSeverityGrows(g: set<Finding>, f: Finding)
    ensures TopSeverity(g + {f}) == if SeverityRank(f.severity) > SeverityRank(TopSeverity(g)) then f.severity else TopSeverity(g)
  {
    HasGrows(g, f, Critical, Called);
    HasGrows(g, f, High, Called);
    HasGrows(g, f, Medium, Called);
    HasGrows(g, f, Low, Called);
    hide HasSeverity, HasReach;
  }

  lemma TopReachGrows(g: set<Finding>, f: Finding)
    ensures TopReach(g + {f}) == if ReachRank(f.reach) > ReachRank(TopReach(g)) then f.reach else TopReach(g)
  {
    HasGrows(g, f, Low, Called);
    HasGrows(g, f, Low, Undetermined);
    HasGrows(g, f, Low, Imported);
    hide HasSeverity, HasReach;
  }

  lemma HasGrows(g: set<Finding>, f: Finding, s: Severity, r: Reach)
    ensures HasSeverity(g + {f}, s) == (HasSeverity(g, s) || f.severity == s)
    ensures HasReach(g + {f}, r) == (HasReach(g, r) || f.reach == r)
  {
    assert f in g + {f};
    if HasSeverity(g, s) { var x :| x in g && x.severity == s; assert x in g + {f}; }
    if HasReach(g, r) { var x :| x in g && x.reach == r; assert x in g + {f}; }
  }

  lemma TopIsHeld(g: set<Finding>)
    requires g != {}
    ensures HasSeverity(g, TopSeverity(g)) && HasReach(g, TopReach(g))
    ensures forall f :: f in g ==> SeverityRank(f.severity) <= SeverityRank(TopSeverity(g))
    ensures forall f :: f in g ==> ReachRank(f.reach) <= ReachRank(TopReach(g))
  {
    forall f | f in g
      ensures SeverityRank(f.severity) <= SeverityRank(TopSeverity(g)) && ReachRank(f.reach) <= ReachRank(TopReach(g))
    {
      assert HasSeverity(g, f.severity) && HasReach(g, f.reach);
    }
    var any :| any in g;
    assert HasSeverity(g, any.severity) && HasReach(g, any.reach);
  }

  /** What the loop variable m holds once the findings in seen are folded in. */
  ghost predicate Folded(m: Finding, rep: Finding, seen: set<Finding>, started: bool) {
    && m.id == rep.id && m.aliases == rep.aliases
    && m.severity == TopSeverity(seen) && m.reach == TopReach(seen) && m.exploited == HasExploited(seen)
    && m.lookupFailed == ((started ==> TopSeverity(seen) == Unrated) && HasFailedLookup(seen))
  }

  lemma FoldStart(rep: Finding)
    ensures Folded(rep, rep, {rep}, false)
  {
    assert rep in {rep};
    TopIsHeld({rep});
    var s :| s in {rep} && s.severity == TopSeverity({rep});
    var r :| r in {rep} && r.reach == TopReach({rep});
  }

  /** One turn of the loop. */
  function FoldIn(m: Finding, f: Finding): Finding {
    var m1 := if SeverityRank(f.severity) > SeverityRank(m.severity) then m.(severity := f.severity) else m;
    var m2 := m1.(lookupFailed := SeverityRank(m1.severity) == 0 && (m1.lookupFailed || f.lookupFailed));
    var m3 := if ReachRank(f.reach) > ReachRank(m2.reach) then m2.(reach := f.reach) else m2;
    if f.exploited then m3.(exploited := true) else m3
  }

  lemma FoldStep(m: Finding, rep: Finding, seen: set<Finding>, started: bool, f: Finding)
    requires Folded(m, rep, seen, started) && seen != {}
    ensures Folded(FoldIn(m, f), rep, seen + {f}, true)
  {
    TopGrows(seen, f);
    hide TopSeverity, TopReach, HasExploited, HasFailedLookup;
  }

  /** The loop of mergeGroup: the fields fold over the group in whatever order it is listed. */
  method FoldGroup(fs: seq<Finding>, idx: seq<int>, rep: Finding) returns (m: Finding, ids: set<string>)
    requires |idx| > 0 && InRange(fs, idx) && rep in Picked(fs, idx)
    ensures ids == AllIds(Picked(fs, idx))
    ensures Folded(m, rep, Picked(fs, idx), true)
  {
    m := rep;
    ids := {};
    ghost var seen := {rep};
    FoldStart(rep);
    assert AllIds(Picked(fs, idx[..0])) == {};
    hide Folded, AllIds, RawIds;
    for k := 0 to |idx|
      invariant seen == {rep} + Picked(fs, idx[..k])
      invariant ids == AllIds(Picked(fs, idx[..k]))
      invariant Folded(m, rep, seen, k > 0)
    {
      var f := fs[idx[k]];
      PickedGrows(fs, idx, k);
      AllIdsGrow(Picked(fs, idx[..k]), f);
      FoldStep(m, rep, seen, k > 0, f);
      seen := seen + {f};
      ids := ids + RawIds(f);
      m := FoldIn(m, f);
    }
    assert idx[..|idx|] == idx;
    assert seen == Picked(fs, idx);
  }

  lemma AllIdsGrow(g: set<Finding>, f: Finding)
    ensures AllIds(g + {f}) == AllIds(g) + RawIds(f)
  {
    assert f in g + {f};
    forall x | x in AllIds(g) ensures x in AllIds(g + {f}) {
      var y :| y in g && x in RawIds(y);
      assert y in g + {f};
    }
  }

  method MergeGroup(fs: seq<Finding>, idx: seq<int>) returns (m: Finding)
    requires |idx| > 0 && InRange(fs, idx)
    ensures m == if |idx| == 1 then fs[idx[0]] else MergeMany(Picked(fs, idx))
  {
    if |idx| == 1 {
      return fs[idx[0]];
    }
    var rep := PickRepresentative(fs, idx);
    assert fs[rep] in Picked(fs, idx);
    var folded, ids := FoldGroup(fs, idx, fs[rep]);
    var sorted := SortKeys(ids - {folded.id});
    m := folded.(aliases := sorted);
  }

  ghost function OwnIds(g: set<Finding>): set<string> { set f | f in g :: f.id }

  method PickRepresentative(fs: seq<Finding>, idx: seq<int>) returns (rep: int)
    requires |idx| > 0 && InRange(fs, idx)
    ensures rep in idx && 0 <= rep < |fs| && fs[rep] in Picked(fs, idx)
    ensures OwnIds(Picked(fs, idx)) != {} && fs[rep].id == RepresentativeId(OwnIds(Picked(fs, idx)))
  {
    rep := idx[0];
    ghost var at := 0;
    LessIrreflexive(fs[rep].id);
    for k := 1 to |idx|
      invariant 0 <= at < |idx| && rep == idx[at]
      invariant forall j :: 0 <= j < k ==> !RepBefore(fs[idx[j]].id, fs[rep].id)
    {
      var i := idx[k];
      if RepBefore(fs[i].id, fs[rep].id) {
        forall j | 0 <= j < k ensures !RepBefore(fs[idx[j]].id, fs[i].id) {
          RepBeforeTransitive(fs[i].id, fs[rep].id, fs[idx[j]].id);
        }
        LessIrreflexive(fs[i].id);
        rep, at := i, k;
      }
    }
    assert fs[rep] in Picked(fs, idx);
    assert fs[rep].id in OwnIds(Picked(fs, idx));
    RepresentativeIsFirst(OwnIds(Picked(fs, idx)), fs[rep].id);
  }

  // ---- The second loop: one group per root ----

  ghost predicate SameRootIffLinked(fs: seq<Finding>, roots: seq<int>) {
    && |roots| == |fs|
    && forall x, y :: 0 <= x < |fs| && 0 <= y < |fs| ==> (roots[x] == roots[y] <==> Linked(fs, x, y))
  }

  ghost function MembersUpTo(roots: seq<int>, r: int, n: nat): (m: seq<int>)
    requires n <= |roots|
    ensures forall x :: x in m <==> 0 <= x < n && roots[x] == r
    ensures forall a, b :: 0 <= a < b < |m| ==> m[a] < m[b]
  {
    if n == 0 then []
    else
      var before := MembersUpTo(roots, r, n - 1);
      assert forall a :: 0 <= a < |before| ==> before[a] in before;
      if roots[n - 1] == r then before + [n - 1] else before
  }

  /** No earlier position has i's root. */
  ghost predicate First(roots: seq<int>, i: int)
    requires 0 <= i < |roots|
  {
    forall j :: 0 <= j < i ==> roots[j] != roots[i]
  }

  ghost function FirstsUpTo(roots: seq<int>, n: nat): (l: seq<int>)
    requires n <= |roots|
    ensures forall k :: 0 <= k < |l| ==> 0 <= l[k] < n
  {
    if n == 0 then []
    else if First(roots, n - 1) then FirstsUpTo(roots, n - 1) + [n - 1]
    else FirstsUpTo(roots, n - 1)
  }

  /** Every root met has its first position in the list. */
  lemma {:induction false} FirstsCover(roots: seq<int>, n: nat, i: int) returns (k: int)
    requires 0 <= i < n <= |roots|
    ensures 0 <= k < |FirstsUpTo(roots, n)| && roots[FirstsUpTo(roots, n)[k]] == roots[i]
  {
    if i < n - 1 {
      k := FirstsCover(roots, n - 1, i);
    } else if First(roots, i) {
      k := |FirstsUpTo(roots, n - 1)|;
    } else {
      var j :| 0 <= j < i && roots[j] == roots[i];
      k := FirstsCover(roots, n - 1, j);
    }
  }

  /** The groups after the first n findings: one per root met, holding its members below n in order. */
  ghost predicate Grouped(roots: seq<int>, n: nat, order: seq<int>, groups: map<int, seq<int>>)
    requires n <= |roots|
  {
    var l := FirstsUpTo(roots, n);
    && |order| == |l|
    && (forall k :: 0 <= k < |l| ==> order[k] == roots[l[k]])
    && (forall r :: r in groups <==> r in order)
    && forall r :: r in groups ==> groups[r] == MembersUpTo(roots, r, n)
  }

  lemma KnownIffNotFirst(roots: seq<int>, n: nat, order: seq<int>, groups: map<int, seq<int>>)
    requires n < |roots| && Grouped(roots, n, order, groups)
    ensures roots[n] in groups <==> !First(roots, n)
  {
    if roots[n] in groups {
      var k :| 0 <= k < |order| && order[k] == roots[n];
      assert roots[FirstsUpTo(roots, n)[k]] == roots[n];
    }
    if !First(roots, n) {
      var j :| 0 <= j < n && roots[j] == roots[n];
      var k := FirstsCover(roots, n, j);
      assert order[k] in order;
    }
  }

  lemma GroupExtended(roots: seq<int>, n: nat, order: seq<int>, groups: map<int, seq<int>>)
    requires n < |roots| && Grouped(roots, n, order, groups) && roots[n] in groups
    ensures Grouped(roots, n + 1, order, groups[roots[n] := groups[roots[n]] + [n]])
  {
    KnownIffNotFirst(roots, n, order, groups);
  }

  lemma {:induction false} NewRootHasNoMember(roots: seq<int>, r: int, n: nat)
    requires n <= |roots| && forall j :: 0 <= j < n ==> roots[j] != r
    ensures MembersUpTo(roots, r, n) == []
  {
    if n > 0 { NewRootHasNoMember(roots, r, n - 1); }
  }

  lemma GroupOpened(roots: seq<int>, n: nat, order: seq<int>, groups: map<int, seq<int>>)
    requires n < |roots| && Grouped(roots, n, order, groups) && roots[n] !in groups
    ensures Grouped(roots, n + 1, order + [roots[n]], groups[roots[n] := [n]])
  {
    KnownIffNotFirst(roots, n, order, groups);
    NewRootHasNoMember(roots, roots[n], n);
  }

  lemma FirstIsLeader(fs: seq<Finding>, roots: seq<int>, n: int)
    requires SameRootIffLinked(fs, roots) && 0 <= n < |fs|
    ensures First(roots, n) <==> Leader(fs, n)
  {
    forall j | 0 <= j < n ensures roots[j] != roots[n] <==> !Linked(fs, j, n) {}
  }

  /** When roots tell the components apart, the first positions of the roots are the leaders. */
  lemma {:induction false} FirstsAreLeaders(fs: seq<Finding>, roots: seq<int>, n: nat)
    requires SameRootIffLinked(fs, roots) && n <= |fs|
    ensures FirstsUpTo(roots, n) == LeadersUpTo(fs, n)
  {
    if n > 0 {
      FirstsAreLeaders(fs, roots, n - 1);
      FirstIsLeader(fs, roots, n - 1);
    }
  }

  ghost function RootsOf(parent: seq<int>, depth: seq<nat>): (roots: seq<int>)
    requires Forest(parent, depth)
    ensures |roots| == |parent| && forall x :: 0 <= x < |parent| ==> roots[x] == Root(parent, depth, x)
  {
    seq(|parent|, x requires 0 <= x < |parent| => Root(parent, depth, x))
  }

  ghost predicate RootsAre(parent: seq<int>, depth: seq<nat>, roots: seq<int>) {
    && Forest(parent, depth) && |roots| == |parent|
    && forall y :: 0 <= y < |parent| ==> Root(parent, depth, y) == roots[y]
  }

  /** find as the second loop uses it: the roots are known and stay as they are. */
  method FindKnown(parent: array<int>, ghost depth: seq<nat>, ghost roots: seq<int>, i: int) returns (r: int)
    requires RootsAre(parent[..], depth, roots) && 0 <= i < parent.Length
    modifies parent
    ensures RootsAre(parent[..], depth, roots) && r == roots[i]
  {
    r := Find(parent, depth, i);
  }

  /** The second loop: the findings grouped by root, the roots in order of first appearance. */
  method GroupByRoot(parent: array<int>, ghost depth: seq<nat>, ghost roots: seq<int>)
    returns (order: seq<int>, groups: map<int, seq<int>>)
    requires RootsAre(parent[..], depth, roots)
    modifies parent
    ensures |roots| == parent.Length && Grouped(roots, |roots|, order, groups)
  {
    groups, order := map[], [];
    assert Grouped(roots, 0, order, groups);
    assert |roots| == parent.Length;
    hide Grouped, RootsAre;
    for i := 0 to parent.Length
      invariant RootsAre(parent[..], depth, roots)
      invariant Grouped(roots, i, order, groups)
    {
      var r := FindKnown(parent, depth, roots, i);
      if r in groups {
        GroupExtended(roots, i, order, groups);
        groups := groups[r := groups[r] + [i]];
      } else {
        GroupOpened(roots, i, order, groups);
        order, groups := order + [r], groups[r := [i]];
      }
    }
  }

  lemma GroupCount(fs: seq<Finding>, roots: seq<int>, order: seq<int>, groups: map<int, seq<int>>)
    requires SameRootIffLinked(fs, roots) && Grouped(roots, |fs|, order, groups)
    ensures |order| == |Merged(fs)|
  {
    FirstsAreLeaders(fs, roots, |fs|);
  }

  /** One merged finding per group. */
  method MergeGroups(fs: seq<Finding>, ghost roots: seq<int>, order: seq<int>, groups: map<int,
                     seq<int>>) returns (out: seq<Finding>)
    requires SameRootIffLinked(fs, roots) && Grouped(roots, |fs|, order, groups)
    ensures out == Merged(fs)
  {
    hide *;
    GroupCount(fs, roots, order, groups);
    out := [];
    for k := 0 to |order|
      invariant out == Merged(fs)[..k]
    {
      GroupIsClass(fs, roots, order, groups, k);
      var m := MergeGroup(fs, groups[order[k]]);
      out := out + [m];
    }
  }

  /** mergeAdvisories: one finding per connected component of shared identifiers. */
  method MergeAdvisories(fs: seq<Finding>) returns (out: seq<Finding>)
    ensures out == Merged(fs)
  {
    if |fs| < 2 {
      MergedShort(fs);
      return fs;
    }
    var parent := new int[|fs|](i => i);
    ghost var depth := Unite(fs, parent);
    ghost var roots := RootsOf(parent[..], depth);
    hide Merged;
    var order, groups := GroupByRoot(parent, depth, roots);
    out := MergeGroups(fs, roots, order, groups);
  }

  lemma GroupIsClass(fs: seq<Finding>, roots: seq<int>, order: seq<int>, groups: map<int, seq<int>>, k: int)
    requires SameRootIffLinked(fs, roots) && Grouped(roots, |fs|, order, groups) && 0 <= k < |order|
    ensures order[k] in groups && |order| == |Merged(fs)|
    ensures |groups[order[k]]| > 0 && InRange(fs, groups[order[k]])
    ensures Merged(fs)[k] == if |groups[order[k]]| == 1 then fs[groups[order[k]][0]] else MergeMany(Picked(fs, groups[order[k]]))
  {
    FirstsAreLeaders(fs, roots, |fs|);
    var i := LeadersUpTo(fs, |fs|)[k];
    assert order[k] in order;
    var idx := groups[order[k]];
    assert i in idx;
    assert forall a :: 0 <= a < |idx| ==> idx[a] in idx;
    if |idx| == 1 {
      assert forall x :: x in idx ==> x == idx[0];
      assert Unlinked(fs, i);
    } else {
      assert idx[0] != idx[1] && Linked(fs, i, idx[0]) && Linked(fs, i, idx[1]);
      assert !Unlinked(fs, i);
      ClassIsPicked(fs, i, idx);
    }
  }

  lemma ClassIsPicked(fs: seq<Finding>, i: int, idx: seq<int>)
    requires InRange(fs, idx)
    requires forall x :: x in idx <==> 0 <= x < |fs| && Linked(fs, i, x)
    ensures Class(fs, i) == Picked(fs, idx)
  {
    forall f | f in Class(fs, i) ensures f in Picked(fs, idx) {
      var j :| 0 <= j < |fs| && Linked(fs, i, j) && fs[j] == f;
      assert j in idx;
      var k :| 0 <= k < |idx| && idx[k] == j;
    }
    forall f | f in Picked(fs, idx) ensures f in Class(fs, i) {
      var k :| 0 <= k < |idx| && fs[idx[k]] == f;
      assert idx[k] in idx;
    }
  }

  lemma MergedShort(fs: seq<Finding>)
    requires |fs| < 2
    ensures Merged(fs) == fs
  {
    if |fs| == 1 {
      assert LeadersUpTo(fs, 1) == [0];
      assert Unlinked(fs, 0) by {
        assert forall j :: 0 <= j < |fs| && Linked(fs, 0, j) ==> j == 0;
      }
    }
  }
}
