/** The module requirement graph (pkg/resolver/graph.go): its edges, the depth search and reachableFrom. */
module DepGraph {

  /** rank stands for the semver order, which is total on ranks but may rank two texts alike. */
  datatype Version = Version(text: string, rank: int)

  /** One line of `go mod graph`: from requires to at the version. */
  datatype Edge = Edge(from_: string, to: string, version: Version)

  type Lists = map<string, seq<string>>

  /** A missing key reads as the empty list. */
  function At(l: Lists, k: string): seq<string> { if k in l then l[k] else [] }

  /** The toolchain's own lines, which are left out. */
  predicate Skipped(path: string) { path == "go" || "toolchain" <= path }

  predicate Kept(e: Edge) { !Skipped(e.from_) && !Skipped(e.to) }

  predicate HasEdge(edges: seq<Edge>, f: string,
                    t: string) { exists e :: e in edges && Kept(e) && e.from_ == f && e.to == t }

  predicate HasVersion(edges: seq<Edge>, t: string,
                       v: Version) { exists e :: e in edges && Kept(e) && e.to == t && e.version == v }

  predicate Distinct(s: seq<string>) { forall i, j :: 0 <= i < j < |s| ==> s[i] != s[j] }

  /** children and parents list each edge once, in opposite directions. */
  ghost predicate Tracks(edges: seq<Edge>, children: Lists, parents: Lists) {
    && (forall f, t :: t in At(children, f) <==> HasEdge(edges, f, t))
    && (forall f, t :: f in At(parents, t) <==> HasEdge(edges, f, t))
    && (forall k :: Distinct(At(children, k)) && Distinct(At(parents, k)))
  }

  /** versions holds, for each required module, a version that some line requires and that none outranks. */
  ghost predicate Highest(edges: seq<Edge>, versions: map<string, Version>) {
    && (forall t :: t in versions <==> exists f :: HasEdge(edges, f, t))
    && (forall t :: t in versions ==> HasVersion(edges, t, versions[t]))
    && (forall t, v :: t in versions && HasVersion(edges, t, v) ==> v.rank <= versions[t].rank)
  }

  lemma OneMoreEdge(edges: seq<Edge>, e: Edge)
    ensures forall f, t :: HasEdge(edges + [e], f, t) <==> HasEdge(edges, f, t) || (Kept(e) && f == e.from_ && t == e.to)
    ensures forall t, v :: HasVersion(edges + [e], t, v) <==> HasVersion(edges, t, v) || (Kept(e) && t == e.to && v == e.version)
  {
    hide Kept;
    forall f, t | HasEdge(edges, f, t) || (Kept(e) && f == e.from_ && t == e.to) ensures HasEdge(edges + [e], f, t) {
      if HasEdge(edges, f, t) {
        var d :| d in edges && Kept(d) && d.from_ == f && d.to == t;
        assert d in edges + [e];
      } else {
        assert e in edges + [e];
      }
    }
    forall t, v | HasVersion(edges, t, v) || (Kept(e) && t == e.to && v == e.version) ensures HasVersion(edges + [e], t, v) {
      if HasVersion(edges, t, v) {
        var d :| d in edges && Kept(d) && d.to == t && d.version == v;
        assert d in edges + [e];
      } else {
        assert e in edges + [e];
      }
    }
  }

  function Track(l: Lists, k: string, x: string): Lists {
    if x in At(l, k) then l else l[k := At(l, k) + [x]]
  }

  lemma TrackAdds(l: Lists, k: string, x: string)
    ensures forall j, y :: y in At(Track(l, k, x), j) <==> y in At(l, j) || (j == k && y == x)
    ensures (forall j :: Distinct(At(l, j))) ==> forall j :: Distinct(At(Track(l, k, x), j))
  {
    forall j ensures Distinct(At(l, j)) ==> Distinct(At(Track(l, k, x), j)) {
      if j != k { assert At(Track(l, k, x), j) == At(l, j); }
    }
    hide Distinct;
  }

  lemma TracksStep(edges: seq<Edge>, e: Edge, children: Lists, parents: Lists)
    requires Tracks(edges, children, parents) && Kept(e)
    ensures Tracks(edges + [e], Track(children, e.from_, e.to), Track(parents, e.to, e.from_))
  {
    hide HasEdge, Track, At, Distinct, Kept, HasVersion;
    OneMoreEdge(edges, e);
    TrackAdds(children, e.from_, e.to);
    TrackAdds(parents, e.to, e.from_);
  }

  lemma HighestStep(edges: seq<Edge>, e: Edge, versions: map<string, Version>)
    requires Highest(edges, versions) && Kept(e)
    ensures Highest(edges + [e], if e.to !in versions || e.version.rank > versions[e.to].rank then versions[e.to := e.version] else versions)
  {
    var r := if e.to !in versions || e.version.rank > versions[e.to].rank then versions[e.to := e.version] else versions;
    OneMoreEdge(edges, e);
    NoVersionsWithoutEdge(edges, e.to);
    hide HasEdge, HasVersion, Kept;
    forall t ensures t in r <==> exists f :: HasEdge(edges + [e], f, t) {
      if t == e.to { assert HasEdge(edges + [e], e.from_, t); }
      if f :| HasEdge(edges, f, t) { assert HasEdge(edges + [e], f, t); }
    }
  }

  lemma NoVersionsWithoutEdge(edges: seq<Edge>, t: string)
    ensures (exists v :: HasVersion(edges, t, v)) ==> exists f :: HasEdge(edges, f, t)
  {
    if v :| HasVersion(edges, t, v) {
      var e :| e in edges && Kept(e) && e.to == t && e.version == v;
      assert HasEdge(edges, e.from_, t);
    }
  }

  lemma OneFewer(edges: seq<Edge>, e: Edge, children: Lists, parents: Lists, versions: map<string, Version>)
    requires Tracks(edges, children, parents) && Highest(edges, versions) && !Kept(e)
    ensures Tracks(edges + [e], children, parents) && Highest(edges + [e], versions)
  {
    OneMoreEdge(edges, e);
    hide HasEdge, HasVersion, Kept, Distinct, At;
    assert forall f, t :: HasEdge(edges + [e], f, t) <==> HasEdge(edges, f, t);
    assert forall t, v :: HasVersion(edges + [e], t, v) <==> HasVersion(edges, t, v);
  }

  /** The loop over the output's lines. */
  method ReadEdges(edges: seq<Edge>) returns (children: Lists, parents: Lists, versions: map<string, Version>)
    ensures Tracks(edges, children, parents)
    ensures Highest(edges, versions)
  {
    children, parents, versions := map[], map[], map[];
    hide HasEdge, HasVersion;
    NoEdges();
    for i := 0 to |edges|
      invariant Tracks(edges[..i], children, parents) && Highest(edges[..i], versions)
    {
      var e := edges[i];
      assert edges[..i + 1] == edges[..i] + [e];
      hide Tracks, Highest, At, Track, Kept;
      if Skipped(e.from_) || Skipped(e.to) {
        NotKept(e);
        OneFewer(edges[..i], e, children, parents, versions);
        continue;
      }
      IsKept(e);
      TracksStep(edges[..i], e, children, parents);
      HighestStep(edges[..i], e, versions);
      children := Track(children, e.from_, e.to);
      parents := Track(parents, e.to, e.from_);
      if e.to !in versions || e.version.rank > versions[e.to].rank {
        versions := versions[e.to := e.version];
      }
    }
    assert edges[..|edges|] == edges;
  }

  /** What the lists hold, in terms of the lines: f lists t exactly when some line says so and neither end is the Go toolchain's
      own, "go" or a path that starts with "toolchain"; and no version is kept for those. */
  lemma ToolchainLeftOut(edges: seq<Edge>, children: Lists, parents: Lists, versions: map<string, Version>, f: string, t: string)
    requires Tracks(edges, children, parents) && Highest(edges, versions)
    ensures var own := (p: string) => p == "go" || "toolchain" <= p;
      && (t in At(children, f) <==> !own(f) && !own(t) && exists e :: e in edges && e.from_ == f && e.to == t)
      && (f in At(parents, t) <==> t in At(children, f))
      && (t in versions <==> !own(t) && exists e :: e in edges && e.to == t && !own(e.from_))
  {
    assert HasEdge(edges, f, t) <==> !Skipped(f) && !Skipped(t) && exists e :: e in edges && e.from_ == f && e.to == t;
    if t in versions {
      var g :| HasEdge(edges, g, t);
      var e :| e in edges && Kept(e) && e.from_ == g && e.to == t;
    }
    if e :| e in edges && e.to == t && !Skipped(e.from_) && !Skipped(t) { assert HasEdge(edges, e.from_, t); }
  }

  lemma NoEdges()
    ensures Tracks([], map[], map[]) && Highest([], map[])
  {
  }

  lemma IsKept(e: Edge)
    requires !Skipped(e.from_) && !Skipped(e.to)
    ensures Kept(e)
  {
  }

  lemma NotKept(e: Edge)
    requires Skipped(e.from_) || Skipped(e.to)
    ensures !Kept(e)
  {
  }

  // ---- Depth ----

  /** A walk of n edges from root to v. */
  ghost predicate Walk(children: Lists, root: string, v: string, n: nat)
    decreases n
  {
    if n == 0 then v == root else exists u :: Walk(children, root, u, n - 1) && v in At(children, u)
  }

  ghost function Children(children: Lists, dom: set<string>): (r: set<string>)
    requires dom <= children.Keys
    ensures forall c :: c in r <==> exists u :: u in dom && c in children[u]
  {
    set u, c | u in dom && c in children[u] :: c
  }

  /** Every module a search from root can meet. */
  ghost function Universe(children: Lists, root: string): set<string> { Children(children, children.Keys) + {root} }

  /** No walk to v is shorter than depths[v] + 1, and one has that length. */
  ghost predicate Shortest(children: Lists, root: string, depths: map<string, int>) {
    && (forall v :: v in depths <==> exists n :: Walk(children, root, v, n))
    && (forall v :: v in depths ==> depths[v] >= -1 && Walk(children, root, v, depths[v] + 1))
    && (forall v, n: nat :: v in depths && Walk(children, root, v, n) ==> depths[v] + 1 <= n)
  }

  /** What has been found so far was found by a walk. */
  ghost predicate Found(children: Lists, root: string, depths: map<string, int>) {
    && root in depths && depths[root] == -1
    && forall v :: v in depths ==> depths[v] >= -1 && Walk(children, root, v, depths[v] + 1)
  }

  /** v's children are found, no deeper than one below it. */
  predicate Relaxed(children: Lists, depths: map<string, int>, v: string, n: nat)
    requires n <= |At(children, v)|
  {
    v in depths && forall k :: 0 <= k < n ==> At(children, v)[k] in depths && depths[At(children, v)[k]] <= depths[v] + 1
  }

  /** The queue holds found modules, shallowest first, spanning two levels at most, and nothing found lies deeper. */
  ghost predicate Levels(depths: map<string, int>, queue: seq<string>, lo: int) {
    && (forall i :: 0 <= i < |queue| ==> queue[i] in depths && lo <= depths[queue[i]])
    && (forall i, j :: 0 <= i < j < |queue| ==> depths[queue[i]] <= depths[queue[j]])
    && forall v :: v in depths ==> depths[v] <= lo + 1
  }

  ghost predicate Done(children: Lists, depths: map<string, int>, queue: seq<string>) {
    forall v :: v in depths && v !in queue ==> Relaxed(children, depths, v, |At(children, v)|)
  }

  lemma {:induction false} WalkIsRelaxed(children: Lists, root: string, depths: map<string, int>, v: string, n: nat)
    requires Found(children, root, depths) && Done(children, depths, []) && Walk(children, root, v, n)
    ensures v in depths && depths[v] + 1 <= n
    decreases n
  {
    if n > 0 {
      var u :| Walk(children, root, u, n - 1) && v in At(children, u);
      WalkIsRelaxed(children, root, depths, u, n - 1);
      hide Walk, Found;
      assert Relaxed(children, depths, u, |At(children, u)|);
      var k :| 0 <= k < |At(children, u)| && At(children, u)[k] == v;
    }
  }

  lemma {:induction false} SearchIsShortest(children: Lists, root: string, depths: map<string, int>)
    requires Found(children, root, depths) && Done(children, depths, [])
    ensures Shortest(children, root, depths)
  {
    forall v, n: nat | Walk(children, root, v, n) ensures v in depths && depths[v] + 1 <= n {
      WalkIsRelaxed(children, root, depths, v, n);
    }
    hide Walk;
  }

  lemma FoundMore(children: Lists, root: string, v: string, child: string, depths: map<string, int>, queue: seq<string>)
    requires Found(children, root, depths) && v in depths && child in At(children, v) && Levels(depths, queue, depths[v])
    requires child !in depths
    ensures Found(children, root, depths[child := depths[v] + 1])
    ensures Levels(depths[child := depths[v] + 1], queue + [child], depths[v])
  {
    assert Walk(children, root, child, depths[v] + 2);
    hide Walk;
  }

  /** Relaxed modules stay so while the search finds more. */
  lemma StaysRelaxed(children: Lists, depths: map<string, int>, v: string, n: nat, child: string, d: int)
    requires n <= |At(children, v)| && Relaxed(children, depths, v, n) && child !in depths
    ensures Relaxed(children, depths[child := d], v, n)
  {
  }

  /** All but v, which is being expanded. */
  ghost predicate DoneBut(children: Lists, depths: map<string, int>, queue: seq<string>, v: string) {
    forall u :: u in depths && u !in queue && u != v ==> Relaxed(children, depths, u, |At(children, u)|)
  }

  lemma DoneMore(children: Lists, depths: map<string, int>, queue: seq<string>, v: string, child: string, d: int)
    requires DoneBut(children, depths, queue, v) && child !in depths
    ensures DoneBut(children, depths[child := d], queue + [child], v)
  {
    forall u | u in depths && u !in queue + [child] && u != v
      ensures Relaxed(children, depths[child := d], u, |At(children, u)|) {
      StaysRelaxed(children, depths, u, |At(children, u)|, child, d);
    }
    hide Relaxed;
    assert child in queue + [child];
  }

  lemma NextLevel(depths: map<string, int>, queue: seq<string>, lo: int)
    requires Levels(depths, queue, lo) && queue != []
    ensures queue[0] in depths && Levels(depths, queue[1..], depths[queue[0]])
  {
  }

  lemma InUniverse(children: Lists, root: string, v: string, k: nat)
    requires k < |At(children, v)|
    ensures At(children, v)[k] in Universe(children, root)
  {
  }

  /** The breadth-first search for the depths, which ends on cyclic graphs too. */
  method Depths(children: Lists, root: string) returns (depths: map<string, int>)
    ensures Shortest(children, root, depths)
  {
    depths := map[root := -1];
    var queue := [root];
    ghost var lo := -1;
    ghost var all := Universe(children, root);
    SearchStarts(children, root);
    hide *;
    while |queue| > 0
      invariant Found(children, root, depths) && Levels(depths, queue, lo) && Done(children, depths, queue)
      invariant depths.Keys <= all
      decreases all - depths.Keys, |queue|
    {
      var current := queue[0];
      NextLevel(depths, queue, lo);
      ghost var before, tail := depths, queue[1..];
      lo := depths[current];
      AllButFirst(children, depths, queue);
      queue := queue[1..];
      RelaxedSoFar(children, depths, current);
      var cs := At(children, current);
      for k := 0 to |cs|
        invariant Found(children, root, depths) && current in depths && depths[current] == lo && Levels(depths, queue, lo)
        invariant DoneBut(children, depths, queue, current) && Relaxed(children, depths, current, k)
        invariant depths.Keys <= all
        invariant (depths == before && queue == tail) || before.Keys < depths.Keys
      {
        InUniverse(children, root, current, k);
        if cs[k] !in depths {
          FoundMore(children, root, current, cs[k], depths, queue);
          DoneMore(children, depths, queue, current, cs[k], depths[current] + 1);
          StaysRelaxed(children, depths, current, k, cs[k], depths[current] + 1);
          depths := depths[cs[k] := depths[current] + 1];
          queue := queue + [cs[k]];
        }
        NoDeeper(depths, queue, lo, cs[k]);
        OneMoreChild(children, depths, current, k);
      }
      AllDone(children, depths, queue, current);
    }
    SearchIsShortest(children, root, depths);
  }

  lemma SearchStarts(children: Lists, root: string)
    ensures Found(children, root, map[root := -1]) && Levels(map[root := -1], [root], -1) && Done(children, map[root := -1], [root])
    ensures root in Universe(children, root)
  {
  }

  lemma AllButFirst(children: Lists, depths: map<string, int>, queue: seq<string>)
    requires queue != [] && Done(children, depths, queue)
    ensures DoneBut(children, depths, queue[1..], queue[0])
  {
    hide Relaxed;
    assert queue == [queue[0]] + queue[1..];
  }

  lemma RelaxedSoFar(children: Lists, depths: map<string, int>, v: string)
    requires v in depths
    ensures Relaxed(children, depths, v, 0)
  {
  }

  lemma NoDeeper(depths: map<string, int>, queue: seq<string>, lo: int, v: string)
    requires Levels(depths, queue, lo) && v in depths
    ensures depths[v] <= lo + 1
  {
  }

  lemma OneMoreChild(children: Lists, depths: map<string, int>, v: string, k: nat)
    requires k < |At(children, v)| && Relaxed(children, depths, v, k)
    requires At(children, v)[k] in depths && depths[At(children, v)[k]] <= depths[v] + 1
    ensures Relaxed(children, depths, v, k + 1)
  {
  }

  lemma AllDone(children: Lists, depths: map<string, int>, queue: seq<string>, v: string)
    requires DoneBut(children, depths, queue, v) && Relaxed(children, depths, v, |At(children, v)|)
    ensures Done(children, depths, queue)
  {
    hide Relaxed;
  }

  /** A dependency's Depth field: modules the search did not reach get 1. */
  function DepthField(depths: map<string, int>, v: string): int { if v in depths && depths[v] >= 0 then depths[v] else 1 }

  /** The guard on the sign never strikes: only the main module has depth -1. */
  lemma DepthFieldIsDistance(children: Lists, root: string, depths: map<string, int>, v: string)
    requires Shortest(children, root, depths) && v != root
    ensures v in depths ==> DepthField(depths, v) == depths[v] >= 0 && Walk(children, root, v, DepthField(depths, v) + 1)
    ensures v !in depths ==> DepthField(depths, v) == 1
  {
  }

  /** Depth 0 is exactly what the main module requires itself, whatever else requires it. */
  lemma DepthZeroIsRequired(edges: seq<Edge>, children: Lists, parents: Lists, root: string, depths: map<string,
                            int>, v: string)
    requires Tracks(edges, children, parents) && Shortest(children, root, depths)
    ensures v in depths && depths[v] == 0 <==> v != root && HasEdge(edges, root, v)
  {
    hide HasEdge;
    assert Walk(children, root, root, 0);
    if v in At(children, root) { assert Walk(children, root, v, 1); }
    if v in depths && depths[v] == 0 {
      var u :| Walk(children, root, u, 0) && v in At(children, u);
    }
  }

  // ---- reachableFrom ----

  /** v lists u as a module that uses it, and v is not the root. */
  predicate Onward(usedBy: Lists, root: string, u: string, v: string) { u in At(usedBy, v) && v != root }

  /** A path from a seed along UsedBy edges that never enters the root after its first module. */
  ghost predicate Avoids(usedBy: Lists, root: string, seeds: set<string>, p: seq<string>) {
    && |p| > 0 && p[0] in seeds
    && forall i, j :: 0 <= i < j < |p| && j == i + 1 ==> Onward(usedBy, root, p[i], p[j])
  }

  ghost predicate Reachable(usedBy: Lists, root: string, seeds: set<string>, v: string) {
    exists p :: Avoids(usedBy, root, seeds, p) && p[|p| - 1] == v
  }

  /** children lists exactly the UsedBy edges the other way round. */
  ghost predicate Reversed(usedBy: Lists, children: Lists) {
    forall u, v :: v in At(children, u) <==> u in At(usedBy, v)
  }

  ghost predicate ReversedSoFar(usedBy: Lists, children: Lists, done: set<string>) {
    forall u, v :: v in At(children, u) <==> v in done && u in At(usedBy, v)
  }

  lemma AppendList(l: Lists, k: string, x: string)
    ensures forall j, y :: y in At(l[k := At(l, k) + [x]], j) <==> y in At(l, j) || (j == k && y == x)
  {
  }

  /** The first loop of reachableFrom, over the dependencies in any order. */
  method Reverse(usedBy: Lists) returns (children: Lists)
    ensures Reversed(usedBy, children)
  {
    children := map[];
    var rest := usedBy.Keys;
    while rest != {}
      invariant rest <= usedBy.Keys
      invariant ReversedSoFar(usedBy, children, usedBy.Keys - rest)
      decreases rest
    {
      var v :| v in rest;
      ghost var before := children;
      for k := 0 to |usedBy[v]|
        invariant forall u, w :: w in At(children, u) <==> w in At(before, u) || (w == v && u in usedBy[v][..k])
      {
        AppendList(children, usedBy[v][k], v);
        assert usedBy[v][..k + 1] == usedBy[v][..k] + [usedBy[v][k]];
        hide At;
        children := children[usedBy[v][k] := At(children, usedBy[v][k]) + [v]];
      }
      assert usedBy[v][..|usedBy[v]|] == usedBy[v];
      rest := rest - {v};
    }
  }

  function AsSet(seeds: seq<string>): set<string> { set s | s in seeds }

  /** Every module reachableFrom can meet. */
  ghost function Reachables(children: Lists, seeds: set<string>): set<string> {
    Children(children, children.Keys) + seeds
  }

  /** u's children, the root apart, have been seen, up to the n-th. */
  predicate Expanded(children: Lists, root: string, seen: set<string>, u: string, n: nat)
    requires n <= |At(children, u)|
  {
    forall k :: 0 <= k < n ==> At(children, u)[k] == root || At(children, u)[k] in seen
  }

  ghost predicate AllExpanded(children: Lists, root: string, seen: set<string>, queue: seq<string>) {
    forall u :: u in seen && u !in queue ==> Expanded(children, root, seen, u, |At(children, u)|)
  }

  ghost predicate ExpandedBut(children: Lists, root: string, seen: set<string>, queue: seq<string>, v: string) {
    forall u :: u in seen && u !in queue && u != v ==> Expanded(children, root, seen, u, |At(children, u)|)
  }

  /** Everything seen is reachable, the seeds are seen, and the queue holds seen modules. */
  ghost predicate Sighted(usedBy: Lists, root: string, seeds: set<string>, seen: set<string>, queue: seq<string>) {
    && (forall s :: s in seeds ==> s in seen)
    && (forall v :: v in queue ==> v in seen)
    && forall v :: v in seen ==> Reachable(usedBy, root, seeds, v)
  }

  lemma SeedIsReachable(usedBy: Lists, root: string, seeds: set<string>, s: string)
    requires s in seeds
    ensures Reachable(usedBy, root, seeds, s)
  {
    assert Avoids(usedBy, root, seeds, [s]);
  }

  lemma ChildIsReachable(usedBy: Lists, root: string, seeds: set<string>, u: string, v: string)
    requires Reachable(usedBy, root, seeds, u) && Onward(usedBy, root, u, v)
    ensures Reachable(usedBy, root, seeds, v)
  {
    hide Onward;
    var p :| Avoids(usedBy, root, seeds, p) && p[|p| - 1] == u;
    assert Avoids(usedBy, root, seeds, p + [v]);
  }

  lemma SearchStartsAtSeeds(usedBy: Lists, children: Lists, root: string, seeds: seq<string>)
    ensures Sighted(usedBy, root, AsSet(seeds), AsSet(seeds), seeds)
    ensures AllExpanded(children, root, AsSet(seeds), seeds)
    ensures AsSet(seeds) <= Reachables(children, AsSet(seeds))
  {
    forall s | s in seeds ensures Reachable(usedBy, root, AsSet(seeds), s) { SeedIsReachable(usedBy, root, AsSet(seeds), s); }
    hide Reachable;
  }

  lemma SightedMore(usedBy: Lists, children: Lists, root: string, seeds: set<string>, seen: set<string>,
                    queue: seq<string>, u: string, k: nat)
    requires Sighted(usedBy, root, seeds, seen, queue) && Reversed(usedBy, children) && u in seen
    requires k < |At(children, u)| && At(children, u)[k] != root
    ensures var v := At(children, u)[k];
      Sighted(usedBy, root, seeds, seen + {v}, queue + [v]) && v in Reachables(children, seeds)
  {
    hide Reachable;
    var v := At(children, u)[k];
    assert v in At(children, u);
    ChildIsReachable(usedBy, root, seeds, u, v);
  }

  lemma ExpandedMore(children: Lists, root: string, seen: set<string>, queue: seq<string>, u: string, k: nat, v: string)
    requires ExpandedBut(children, root, seen, queue, u) && k <= |At(children, u)| && Expanded(children, root, seen, u, k)
    ensures ExpandedBut(children, root, seen + {v}, queue + [v], u) && Expanded(children, root, seen + {v}, u, k)
  {
    forall w | w in seen + {v} && w !in queue + [v] && w != u ensures Expanded(children, root, seen + {v}, w, |At(children, w)|) {
      assert v in queue + [v];
      assert Expanded(children, root, seen, w, |At(children, w)|);
    }
  }

  lemma Popped(usedBy: Lists, children: Lists, root: string, seeds: set<string>, seen: set<string>, queue: seq<string>)
    requires queue != [] && Sighted(usedBy, root, seeds, seen, queue) && AllExpanded(children, root, seen, queue)
    ensures queue[0] in seen && Sighted(usedBy, root, seeds, seen, queue[1..])
    ensures ExpandedBut(children, root, seen, queue[1..], queue[0]) && Expanded(children, root, seen, queue[0], 0)
  {
    hide Reachable;
    assert queue == [queue[0]] + queue[1..];
  }

  lemma OneMoreExpanded(children: Lists, root: string, seen: set<string>, u: string, k: nat)
    requires k < |At(children, u)| && Expanded(children, root, seen, u, k)
    requires At(children, u)[k] == root || At(children, u)[k] in seen
    ensures Expanded(children, root, seen, u, k + 1)
  {
  }

  lemma NoneLeft(children: Lists, root: string, seen: set<string>, queue: seq<string>, u: string)
    requires ExpandedBut(children, root, seen, queue, u) && Expanded(children, root, seen, u, |At(children, u)|)
    ensures AllExpanded(children, root, seen, queue)
  {
    hide Expanded;
  }

  lemma NextIsSeen(usedBy: Lists, children: Lists, root: string, seen: set<string>, u: string, v: string)
    requires AllExpanded(children, root, seen, []) && Reversed(usedBy, children) && u in seen && Onward(usedBy, root, u, v)
    ensures v in seen
  {
    assert v in At(children, u);
    assert Expanded(children, root, seen, u, |At(children, u)|);
  }

  lemma {:induction false} PathIsSeen(usedBy: Lists, children: Lists, root: string, seeds: set<string>,
                                      seen: set<string>, p: seq<string>, n: nat)
    requires Sighted(usedBy, root, seeds, seen, []) && AllExpanded(children, root, seen, []) && Reversed(usedBy, children)
    requires Avoids(usedBy, root, seeds, p) && n < |p|
    ensures p[n] in seen
  {
    hide Reachable, AllExpanded, Reversed, Onward;
    if n > 0 {
      PathIsSeen(usedBy, children, root, seeds, seen, p, n - 1);
      assert Onward(usedBy, root, p[n - 1], p[n]);
      NextIsSeen(usedBy, children, root, seen, p[n - 1], p[n]);
    }
  }

  lemma SeenIsReachable(usedBy: Lists, children: Lists, root: string, seeds: set<string>, seen: set<string>)
    requires Sighted(usedBy, root, seeds, seen, []) && AllExpanded(children, root, seen, []) && Reversed(usedBy, children)
    ensures forall v :: v in seen <==> Reachable(usedBy, root, seeds, v)
  {
    forall v | Reachable(usedBy, root, seeds, v) ensures v in seen {
      var p :| Avoids(usedBy, root, seeds, p) && p[|p| - 1] == v;
      PathIsSeen(usedBy, children, root, seeds, seen, p, |p| - 1);
    }
  }

  /** reachableFrom, which ends on cyclic graphs too; no seeds give nothing. */
  method ReachableFrom(usedBy: Lists, root: string, from: seq<string>) returns (seen: set<string>)
    ensures forall v :: v in seen <==> Reachable(usedBy, root, AsSet(from), v)
  {
    if |from| == 0 {
      return {};
    }
    var children := Reverse(usedBy);
    seen := AsSet(from);
    var queue := from;
    ghost var seeds := AsSet(from);
    ghost var all := Reachables(children, seeds);
    SearchStartsAtSeeds(usedBy, children, root, from);
    hide *;
    while |queue| > 0
      invariant Sighted(usedBy, root, seeds, seen, queue) && AllExpanded(children, root, seen, queue)
      invariant seen <= all
      decreases all - seen, |queue|
    {
      var current := queue[0];
      Popped(usedBy, children, root, seeds, seen, queue);
      ghost var before, tail := seen, queue[1..];
      queue := queue[1..];
      var cs := At(children, current);
      for k := 0 to |cs|
        invariant Sighted(usedBy, root, seeds, seen, queue) && current in seen
        invariant ExpandedBut(children, root, seen, queue, current) && Expanded(children, root, seen, current, k)
        invariant seen <= all
        invariant (seen == before && queue == tail) || before < seen
      {
        if cs[k] != root && cs[k] !in seen {
          SightedMore(usedBy, children, root, seeds, seen, queue, current, k);
          ExpandedMore(children, root, seen, queue, current, k, cs[k]);
          seen := seen + {cs[k]};
          queue := queue + [cs[k]];
        }
        OneMoreExpanded(children, root, seen, current, k);
      }
      NoneLeft(children, root, seen, queue, current);
    }
    SeenIsReachable(usedBy, children, root, seeds, seen);
  }

  /** The UsedBy fields, which the graph takes from parents for every module but the root. */
  function UsedByOf(parents: Lists, root: string): Lists { map v | v in parents && v != root :: parents[v] }

  /** On the graph that was read, reachableFrom follows exactly the lines of `go mod graph` that do not lead to the root. */
  lemma OnwardIsAnEdge(edges: seq<Edge>, children: Lists, parents: Lists, root: string, u: string, v: string)
    requires Tracks(edges, children, parents)
    ensures Onward(UsedByOf(parents, root), root, u, v) <==> HasEdge(edges, u, v) && v != root
  {
    hide HasEdge;
    if v != root { assert At(UsedByOf(parents, root), v) == At(parents, v); }
  }
}
