/** Which modules the build uses (pkg/resolver/graph.go): the merge of the `go list` runs and the three-valued verdicts. */
module BuildLists {
  import opened GradeTypes
  import opened DepGraph

  const GOOS_COUNT := 3
  const RUN_COUNT := 24
  const TARGET_COUNT := 6

  /** The runs are ordered by GOOS, GOARCH, CGO_ENABLED and test; a target is a GOOS and a GOARCH. */
  function Target(run: nat): nat { run / 4 }

  function Goos(target: nat): nat { target / 2 }

  predicate IsTest(run: nat) { run % 2 == 1 }

  /** What one `go list` run reported; mods is evidence even when the run left packages unresolved. */
  datatype ListResult = ListResult(mods: set<string>, unresolved: set<string>, failed: bool) {
    predicate Clean() { !failed && unresolved == {} }
  }

  /** The runs of one target merged. */
  datatype Platform = Platform(goos: nat, prod: set<string>, test: set<string>, unresolved: set<string>, failed: bool) {
    predicate Clean() { !failed && unresolved == {} }
  }

  function RunMods(results: seq<ListResult>, n: nat, target: nat, test: bool): set<string>
    requires n <= |results|
  {
    set i, m | 0 <= i < n && Target(i) == target && IsTest(i) == test && m in results[i].mods :: m
  }

  function RunUnresolved(results: seq<ListResult>, n: nat, target: nat): set<string>
    requires n <= |results|
  {
    set i, m | 0 <= i < n && Target(i) == target && m in results[i].unresolved :: m
  }

  predicate RunFailed(results: seq<ListResult>, n: nat, target: nat)
    requires n <= |results|
  {
    exists i :: 0 <= i < n && Target(i) == target && results[i].failed
  }

  /** One target after the first n runs. */
  function PlatformOf(results: seq<ListResult>, n: nat, target: nat): Platform
    requires n <= |results|
  {
    Platform(Goos(target), RunMods(results, n, target, false), RunMods(results, n, target, true),
             RunUnresolved(results, n, target), RunFailed(results, n, target))
  }

  function PlatformsOf(results: seq<ListResult>): (ps: seq<Platform>)
    ensures |ps| == TARGET_COUNT
  {
    seq(TARGET_COUNT, t requires 0 <= t < TARGET_COUNT => PlatformOf(results, |results|, t))
  }

  lemma OneMoreRun(results: seq<ListResult>, n: nat, target: nat)
    requires n < |results|
    ensures var p, q, r := PlatformOf(results, n, target), PlatformOf(results, n + 1, target), results[n];
      q == if Target(n) != target then p
           else Platform(p.goos, if IsTest(n) then p.prod else p.prod + r.mods, if IsTest(n) then p.test + r.mods else p.test,
                         p.unresolved + r.unresolved, p.failed || r.failed)
  {
    hide Target, IsTest;
    var r := results[n];
    forall test: bool ensures RunMods(results, n + 1, target, test) ==
      RunMods(results, n, target, test) + if Target(n) == target && IsTest(n) == test then r.mods else {} {}
    assert RunUnresolved(results, n + 1, target) == RunUnresolved(results, n, target) + if Target(n) == target then r.unresolved else {};
  }

  /** The merge in listPlatforms, once every run has reported. */
  method MergeRuns(results: seq<ListResult>) returns (platforms: seq<Platform>)
    requires |results| == RUN_COUNT
    ensures platforms == PlatformsOf(results)
  {
    var ps := new Platform[TARGET_COUNT](t requires 0 <= t < TARGET_COUNT => Platform(Goos(t), {}, {}, {}, false));
    hide RunMods, RunUnresolved, RunFailed;
    forall t | 0 <= t < TARGET_COUNT ensures ps[t] == PlatformOf(results, 0, t) { NoRuns(results, t); }
    for i := 0 to |results|
      invariant ps.Length == TARGET_COUNT
      invariant forall t :: 0 <= t < TARGET_COUNT ==> ps[t] == PlatformOf(results, i, t)
    {
      var res, p := results[i], ps[Target(i)];
      if IsTest(i) {
        p := p.(test := p.test + res.mods);
      } else {
        p := p.(prod := p.prod + res.mods);
      }
      if res.failed && !p.failed {
        p := p.(failed := true);
      }
      p := p.(unresolved := p.unresolved + res.unresolved);
      forall t: nat | t < TARGET_COUNT ensures PlatformOf(results, i + 1, t) == if t == Target(i) then p else PlatformOf(results, i, t) {
        OneMoreRun(results, i, t);
      }
      ps[Target(i)] := p;
    }
    platforms := ps[..];
  }

  lemma NoRuns(results: seq<ListResult>, target: nat)
    ensures PlatformOf(results, 0, target) == Platform(Goos(target), {}, {}, {}, false)
  {
  }

  // ---- The verdicts ----

  /** The GOOS values whose production lists hold m, in the order of the platforms. */
  function ProdOn(platforms: seq<Platform>, m: string): seq<nat> {
    if platforms == [] then []
    else
      var before, p := ProdOn(platforms[..|platforms| - 1], m), platforms[|platforms| - 1];
      if m in p.prod && p.goos !in before then before + [p.goos] else before
  }

  predicate InTest(platforms: seq<Platform>, m: string) { exists p :: p in platforms && m in p.test }

  predicate Partial(platforms: seq<Platform>) { exists p :: p in platforms && !p.Clean() }

  /** Some target is clean and some list holds a module. */
  predicate Available(platforms: seq<Platform>) {
    (exists p :: p in platforms && p.Clean()) && exists p :: p in platforms && (p.prod != {} || p.test != {})
  }

  /** A nil verdict is None; platforms is empty unless the module is restricted to some. */
  datatype Verdict = Verdict(isTestOnly: Option<bool>, inBuild: Option<bool>, platforms: seq<nat>)

  const NO_VERDICT := Verdict(None, None, [])

  /** The switch; unknown says that m may be needed under a build tag. */
  function VerdictOf(platforms: seq<Platform>, m: string, unknown: bool): Verdict {
    var prodOn, partial := ProdOn(platforms, m), Partial(platforms);
    if !Available(platforms) then NO_VERDICT
    else if prodOn != [] then Verdict(Some(false), Some(true), if !partial && |prodOn| < GOOS_COUNT then prodOn else [])
    else if InTest(platforms, m) then Verdict(if partial then None else Some(true), Some(true), [])
    else if partial || unknown then NO_VERDICT
    else Verdict(None, Some(false), [])
  }

  lemma {:induction false} ProdOnHolds(platforms: seq<Platform>, m: string, g: nat)
    ensures g in ProdOn(platforms, m) <==> exists p :: p in platforms && p.goos == g && m in p.prod
  {
    if platforms != [] {
      var n := |platforms| - 1;
      ProdOnHolds(platforms[..n], m, g);
      assert platforms == platforms[..n] + [platforms[n]];
    }
  }

  /** membership: the GOOS values on which m is in production, and whether it is in any test list. */
  method Membership(platforms: seq<Platform>, m: string) returns (prodOn: seq<nat>, inTest: bool)
    ensures prodOn == ProdOn(platforms, m) && inTest == InTest(platforms, m)
  {
    prodOn, inTest := [], false;
    for i := 0 to |platforms|
      invariant prodOn == ProdOn(platforms[..i], m)
      invariant inTest == exists k :: 0 <= k < i && m in platforms[k].test
    {
      var p := platforms[i];
      assert platforms[..i + 1][..i] == platforms[..i];
      if m in p.prod && p.goos !in prodOn {
        prodOn := prodOn + [p.goos];
      }
      if m in p.test {
        inTest := true;
      }
    }
    assert platforms[..|platforms|] == platforms;
  }

  // ---- The dependencies ----

  class Dependency {
    const direct: bool
    const usedBy: seq<string>
    var isTestOnly: Option<bool>
    var inBuild: Option<bool>
    var platforms: seq<nat>

    constructor (direct: bool, usedBy: seq<string>)
      ensures this.direct == direct && this.usedBy == usedBy && Now() == NO_VERDICT
    {
      this.direct, this.usedBy := direct, usedBy;
      isTestOnly, inBuild, platforms := None, None, [];
    }

    function Now(): Verdict
      reads this
    {
      Verdict(isTestOnly, inBuild, platforms)
    }
  }

  type Graph = map<string, Dependency>

  /** Two paths never lead to one record. */
  predicate OneRecordEach(graph: Graph) { forall m, n :: m in graph && n in graph && m != n ==> graph[m] != graph[n] }

  function UsedBy(graph: Graph): Lists { map m | m in graph :: graph[m].usedBy }

  /** The main module requires it and no list holds it: its code may sit behind a build tag. */
  predicate Unfound(platforms: seq<Platform>, m: string) { ProdOn(platforms, m) == [] && !InTest(platforms, m) }

  function Seeds(platforms: seq<Platform>, graph: Graph): set<string> {
    set m | m in graph && graph[m].direct && Unfound(platforms, m)
  }

  /** Code behind a build tag may need m; listed is the set of modules go.mod requires, when that proves anything. */
  ghost predicate BelowUnknown(platforms: seq<Platform>, graph: Graph, root: string, listed: Option<set<string>>,
                               m: string) {
    && !Partial(platforms) && Reachable(UsedBy(graph), root, Seeds(platforms, graph), m)
    && (listed.Some? ==> m in listed.value)
  }

  ghost function Classified(platforms: seq<Platform>, graph: Graph, root: string, listed: Option<set<string>>,
                            m: string): Verdict
    requires m in graph
  {
    VerdictOf(platforms, m, graph[m].direct || BelowUnknown(platforms, graph, root, listed, m))
  }

  /** A nil verdict leaves the field as it was. */
  function Overlay(was: Verdict, v: Verdict): Verdict {
    Verdict(if v.isTestOnly.Some? then v.isTestOnly else was.isTestOnly,
            if v.inBuild.Some? then v.inBuild else was.inBuild,
            if v.platforms != [] then v.platforms else was.platforms)
  }

  /** A verdict replaces what was there, and what it leaves open stays. */
  lemma OverlayIs(was: Verdict, v: Verdict)
    ensures var now := Overlay(was, v);
      && (v.isTestOnly.Some? ==> now.isTestOnly == v.isTestOnly) && (v.inBuild.Some? ==> now.inBuild == v.inBuild)
      && (v.platforms != [] ==> now.platforms == v.platforms)
      && (v == NO_VERDICT ==> now == was) && (was == NO_VERDICT ==> now == v)
      && (v.isTestOnly.None? ==> now.isTestOnly == was.isTestOnly) && (v.inBuild.None? ==> now.inBuild == was.inBuild)
  {
  }

  method AnyPlatform(platforms: seq<Platform>, flag: Platform -> bool) returns (found: bool)
    ensures found == exists p :: p in platforms && flag(p)
  {
    found := false;
    for i := 0 to |platforms|
      invariant !found && forall k :: 0 <= k < i ==> !flag(platforms[k])
    {
      if flag(platforms[i]) {
        return true;
      }
    }
  }

  /** The direct requirements that no list holds, in the order of the walk over the map. */
  method FindSeeds(platforms: seq<Platform>, graph: Graph) returns (seeds: seq<string>)
    ensures AsSet(seeds) == Seeds(platforms, graph)
  {
    seeds := [];
    var rest := graph.Keys;
    while rest != {}
      invariant rest <= graph.Keys
      invariant forall m :: m in seeds <==> m in graph.Keys - rest && graph[m].direct && Unfound(platforms, m)
      decreases rest
    {
      var m :| m in rest;
      if graph[m].direct {
        var prodOn, inTest := Membership(platforms, m);
        if |prodOn| == 0 && !inTest {
          seeds := seeds + [m];
        }
      }
      rest := rest - {m};
    }
  }

  method FindBelowUnknown(platforms: seq<Platform>, graph: Graph, root: string,
                          listed: Option<set<string>>) returns (below: set<string>)
    ensures forall m :: m in below <==> BelowUnknown(platforms, graph, root, listed, m)
  {
    var partial := AnyPlatform(platforms, (p: Platform) => !p.Clean());
    assert partial == Partial(platforms);
    if partial {
      return {};
    }
    hide Reachable, Seeds, UsedBy;
    var seeds := FindSeeds(platforms, graph);
    below := ReachableFrom(UsedBy(graph), root, seeds);
    if listed.Some? {
      below := set m | m in below && m in listed.value;
    }
  }

  /** The switch of the last loop, on one dependency. */
  method WriteVerdict(platforms: seq<Platform>, m: string, dep: Dependency, below: bool, partial: bool)
    requires Available(platforms) && partial == Partial(platforms)
    modifies dep
    ensures dep.Now() == Overlay(old(dep.Now()), VerdictOf(platforms, m, dep.direct || below))
  {
    hide Available, Partial, InTest, ProdOn;
    var prodOn, inTest := Membership(platforms, m);
    var inBuild := true;
    if |prodOn| > 0 {
      dep.isTestOnly := Some(false);
      if !partial && |prodOn| < GOOS_COUNT {
        dep.platforms := prodOn;
      }
    } else if inTest {
      if !partial {
        dep.isTestOnly := Some(true);
      }
    } else if partial || dep.direct || below {
      return;
    } else {
      inBuild := false;
    }
    dep.inBuild := Some(inBuild);
  }

  /** The last loop, over the dependencies in any order. */
  method WriteVerdicts(platforms: seq<Platform>, graph: Graph, below: set<string>, partial: bool)
    requires OneRecordEach(graph) && Available(platforms) && partial == Partial(platforms)
    modifies graph.Values
    ensures forall m :: m in graph ==>
      graph[m].Now() == Overlay(old(graph[m].Now()), VerdictOf(platforms, m, graph[m].direct || m in below))
  {
    hide *;
    ghost var was := map m | m in graph :: graph[m].Now();
    ghost var want := map m | m in graph :: Overlay(was[m], VerdictOf(platforms, m, graph[m].direct || m in below));
    var rest := graph.Keys;
    while rest != {}
      invariant rest <= graph.Keys
      invariant forall m :: m in graph ==> graph[m].Now() == if m in rest then was[m] else want[m]
      decreases rest
    {
      var m :| m in rest;
      assert graph[m] in graph.Values;
      Separate(graph, m);
      WriteVerdict(platforms, m, graph[m], m in below, partial);
      rest := rest - {m};
    }
  }

  /** classifyTestOnlyDeps: the fields of every dependency, from the merged lists. */
  method Classify(platforms: seq<Platform>, graph: Graph, root: string, listed: Option<set<string>>)
    requires OneRecordEach(graph)
    modifies graph.Values
    ensures forall m :: m in graph ==> graph[m].Now() == Overlay(old(graph[m].Now()), Classified(platforms, graph, root, listed, m))
    // on a fresh graph the fields are the verdicts
    ensures forall m :: m in graph && old(graph[m].Now()) == NO_VERDICT ==> graph[m].Now() == Classified(platforms, graph, root, listed, m)
  {
    var someClean := AnyPlatform(platforms, (p: Platform) => p.Clean());
    var someListed := AnyPlatform(platforms, (p: Platform) => p.prod != {} || p.test != {});
    assert (someClean && someListed) == Available(platforms);
    if !someClean || !someListed {
      return;
    }
    var partial := AnyPlatform(platforms, (p: Platform) => !p.Clean());
    assert partial == Partial(platforms);
    var below := FindBelowUnknown(platforms, graph, root, listed);
    forall v: Verdict ensures Overlay(NO_VERDICT, v) == v { OverlayIs(NO_VERDICT, v); }
    hide Available, Partial, BelowUnknown, VerdictOf, Overlay, OneRecordEach;
    WriteVerdicts(platforms, graph, below, partial);
  }

  lemma Separate(graph: Graph, m: string)
    requires OneRecordEach(graph) && m in graph
    ensures forall n :: n in graph && n != m ==> graph[n] != graph[m]
  {
  }

  // ---- Soundness ----

  /** truth[i] is the set of modules that run i's build really uses. What a run saw is true; a clean run saw everything. */
  ghost predicate Sound(results: seq<ListResult>, truth: seq<set<string>>) {
    && |results| == |truth| == RUN_COUNT
    && forall i :: 0 <= i < RUN_COUNT ==> results[i].mods <= truth[i] && (results[i].Clean() ==> results[i].mods == truth[i])
  }

  /** m is built into the module's own packages on that GOOS. */
  ghost predicate ProducedOn(truth: seq<set<string>>, g: nat, m: string) {
    exists i :: 0 <= i < |truth| && Goos(Target(i)) == g && !IsTest(i) && m in truth[i]
  }

  ghost predicate Produced(truth: seq<set<string>>,
                           m: string) { exists i :: 0 <= i < |truth| && !IsTest(i) && m in truth[i] }

  /** m is built into the module's packages or their tests. */
  ghost predicate Built(truth: seq<set<string>>, m: string) { exists i :: 0 <= i < |truth| && m in truth[i] }

  lemma SeenOn(results: seq<ListResult>, m: string, g: nat)
    requires |results| == RUN_COUNT
    ensures g in ProdOn(PlatformsOf(results), m) <==> exists i :: 0 <= i < RUN_COUNT && Goos(Target(i)) == g && !IsTest(i) && m in results[i].mods
  {
    hide RunUnresolved, RunFailed;
    var ps := PlatformsOf(results);
    ProdOnHolds(ps, m, g);
    hide ProdOn;
    if i :| 0 <= i < RUN_COUNT && Goos(Target(i)) == g && !IsTest(i) && m in results[i].mods {
      assert ps[Target(i)] in ps && m in ps[Target(i)].prod;
    }
    if p :| p in ps && p.goos == g && m in p.prod {
      var t :| 0 <= t < TARGET_COUNT && ps[t] == p;
      var i :| 0 <= i < RUN_COUNT && Target(i) == t && IsTest(i) == false && m in results[i].mods;
    }
  }

  lemma SeenInTest(results: seq<ListResult>, m: string)
    requires |results| == RUN_COUNT
    ensures InTest(PlatformsOf(results), m) <==> exists i :: 0 <= i < RUN_COUNT && IsTest(i) && m in results[i].mods
  {
    hide RunUnresolved, RunFailed;
    var ps := PlatformsOf(results);
    if i :| 0 <= i < RUN_COUNT && IsTest(i) && m in results[i].mods {
      assert ps[Target(i)] in ps && m in ps[Target(i)].test;
    }
    if p :| p in ps && m in p.test {
      var t :| 0 <= t < TARGET_COUNT && ps[t] == p;
      var i :| 0 <= i < RUN_COUNT && Target(i) == t && IsTest(i) == true && m in results[i].mods;
    }
  }

  predicate RunsClean(results: seq<ListResult>, t: nat)
    requires |results| == RUN_COUNT
  {
    forall i :: 0 <= i < RUN_COUNT && Target(i) == t ==> results[i].Clean()
  }

  /** A target is clean when every one of its runs is. */
  lemma CleanTarget(results: seq<ListResult>, t: nat)
    requires |results| == RUN_COUNT && t < TARGET_COUNT
    ensures PlatformsOf(results)[t].Clean() <==> RunsClean(results, t)
  {
    hide RunMods, Target;
    var p := PlatformsOf(results)[t];
    if i :| 0 <= i < RUN_COUNT && Target(i) == t && !results[i].Clean() && !results[i].failed {
      var u :| u in results[i].unresolved;
      assert u in p.unresolved;
    }
    if !p.Clean() && !p.failed { var u :| u in p.unresolved; }
  }

  lemma PartialRuns(results: seq<ListResult>)
    requires |results| == RUN_COUNT
    ensures Partial(PlatformsOf(results)) <==> exists i :: 0 <= i < RUN_COUNT && !results[i].Clean()
  {
    var ps := PlatformsOf(results);
    hide PlatformsOf;
    if i :| 0 <= i < RUN_COUNT && !results[i].Clean() {
      CleanTarget(results, Target(i));
      assert ps[Target(i)] in ps;
    }
    if p :| p in ps && !p.Clean() {
      var t :| 0 <= t < TARGET_COUNT && ps[t] == p;
      CleanTarget(results, t);
    }
  }

  lemma {:induction false} ProdOnDistinct(platforms: seq<Platform>, m: string)
    ensures forall i, j :: 0 <= i < j < |ProdOn(platforms, m)| ==> ProdOn(platforms, m)[i] != ProdOn(platforms, m)[j]
  {
    if platforms != [] { ProdOnDistinct(platforms[..|platforms| - 1], m); }
  }

  lemma AllThree(s: seq<nat>)
    requires forall i, j :: 0 <= i < j < |s| ==> s[i] != s[j]
    requires forall g :: g in s ==> g < GOOS_COUNT
    ensures |s| < GOOS_COUNT <==> !(0 in s && 1 in s && 2 in s)
  {
    if 0 in s && 1 in s && 2 in s {
      var a :| 0 <= a < |s| && s[a] == 0;
      var b :| 0 <= b < |s| && s[b] == 1;
      var c :| 0 <= c < |s| && s[c] == 2;
    }
    if |s| >= GOOS_COUNT {
      assert s[0] in s && s[1] in s && s[2] in s;
      assert s[0] != s[1] && s[1] != s[2] && s[0] != s[2];
    }
  }

  /** What the production lists say of m, against the truth. */
  lemma ProdOnAgainstTruth(results: seq<ListResult>, truth: seq<set<string>>, m: string)
    requires Sound(results, truth)
    ensures var prodOn, partial := ProdOn(PlatformsOf(results), m), Partial(PlatformsOf(results));
      && (forall g: nat :: g in prodOn ==> g < GOOS_COUNT && ProducedOn(truth, g, m))
      && (!partial ==> forall g: nat :: ProducedOn(truth, g, m) ==> g in prodOn)
      && (|prodOn| < GOOS_COUNT <==> exists g: nat :: g < GOOS_COUNT && g !in prodOn)
      && (prodOn != [] ==> Produced(truth, m))
      && (!partial ==> (prodOn != [] <==> Produced(truth, m)))
  {
    PartialRuns(results);
    var prodOn := ProdOn(PlatformsOf(results), m);
    forall g: nat ensures g in prodOn <==> exists i :: 0 <= i < RUN_COUNT && Goos(Target(i)) == g && !IsTest(i) && m in results[i].mods {
      SeenOn(results, m, g);
    }
    ProdOnDistinct(PlatformsOf(results), m);
    hide ProdOn, PlatformsOf, IsTest, Partial;
    AllThree(prodOn);
    assert prodOn != [] ==> prodOn[0] in prodOn;
    if i :| 0 <= i < |truth| && !IsTest(i) && m in truth[i] && forall k :: 0 <= k < RUN_COUNT ==> results[k].Clean() {
      assert Goos(Target(i)) in prodOn;
    }
  }

  lemma InTestAgainstTruth(results: seq<ListResult>, truth: seq<set<string>>, m: string)
    requires Sound(results, truth)
    ensures var prodOn, inTest, partial := ProdOn(PlatformsOf(results), m), InTest(PlatformsOf(results), m), Partial(PlatformsOf(results));
      && (inTest ==> Built(truth, m))
      && (!partial ==> (Built(truth, m) <==> Produced(truth, m) || inTest))
      && (Produced(truth, m) ==> Built(truth, m))
  {
    PartialRuns(results);
    SeenInTest(results, m);
    hide ProdOn, PlatformsOf, IsTest, Partial;
  }

  /** Every definite verdict is true of the modules' own builds, however many runs failed. */
  lemma VerdictsAreTrue(results: seq<ListResult>, truth: seq<set<string>>, m: string, unknown: bool)
    requires Sound(results, truth)
    ensures var v := VerdictOf(PlatformsOf(results), m, unknown);
      && (v.isTestOnly == Some(false) ==> Produced(truth, m))
      && (v.isTestOnly == Some(true) ==> Built(truth, m) && !Produced(truth, m))
      && (v.inBuild == Some(true) ==> Built(truth, m))
      && (v.inBuild == Some(false) ==> !Built(truth, m))
      && (v.platforms != [] ==>
            && (forall g: nat :: g in v.platforms <==> ProducedOn(truth, g, m))
            && exists g: nat :: g < GOOS_COUNT && !ProducedOn(truth, g, m))
  {
    ProdOnAgainstTruth(results, truth, m);
    InTestAgainstTruth(results, truth, m);
    hide Sound, Produced, ProducedOn, Built, Partial, ProdOn, PlatformsOf, InTest, Available;
  }

  ghost predicate InOrder(s: seq<nat>, last: nat) { (forall i, j :: 0 <= i < j < |s| ==> s[i] < s[j]) && forall g :: g in s ==> g <= last }

  lemma {:induction false} ProdOnInOrder(platforms: seq<Platform>, m: string)
    requires platforms != [] && forall i, j :: 0 <= i < j < |platforms| ==> platforms[i].goos <= platforms[j].goos
    ensures InOrder(ProdOn(platforms, m), platforms[|platforms| - 1].goos)
  {
    var n := |platforms| - 1;
    var init := platforms[..n];
    if n == 0 {
      assert ProdOn(init, m) == [];
    } else {
      assert forall i :: 0 <= i < n ==> init[i] == platforms[i];
      ProdOnInOrder(init, m);
      assert init[n - 1].goos <= platforms[n].goos;
      var before := ProdOn(init, m);
      forall i | 0 <= i < |before| ensures before[i] in before && before[i] <= platforms[n].goos {}
    }
  }

  /** Platforms are listed in ascending order, each once. */
  lemma PlatformsInOrder(results: seq<ListResult>, m: string, unknown: bool)
    ensures InOrder(VerdictOf(PlatformsOf(results), m, unknown).platforms, GOOS_COUNT - 1)
  {
    var ps := PlatformsOf(results);
    forall i, j | 0 <= i < j < |ps| ensures ps[i].goos <= ps[j].goos { assert ps[i].goos == i / 2 && ps[j].goos == j / 2; }
    assert ps[5].goos == 2;
    ProdOnInOrder(ps, m);
    hide ProdOn, PlatformsOf, Available, Partial, InTest;
  }

  // ---- Verdicts that must be given ----

  /** One target that lists cleanly is enough: what any run saw is in the build, and what a production run saw is not
      test-only, whichever other runs failed. */
  lemma SeenIsGiven(results: seq<ListResult>, t: nat, i: nat, m: string, unknown: bool)
    requires |results| == RUN_COUNT && t < TARGET_COUNT && i < RUN_COUNT && m in results[i].mods
    requires forall j :: 0 <= j < RUN_COUNT && j / 4 == t ==> !results[j].failed && results[j].unresolved == {}
    ensures var v := VerdictOf(PlatformsOf(results), m, unknown);
      && v.inBuild == Some(true)
      && (i % 2 == 0 ==> v.isTestOnly == Some(false))
  {
    AvailableRuns(results);
    assert RunsClean(results, t);
    SeenOn(results, m, Goos(Target(i)));
    SeenInTest(results, m);
    assert IsTest(i) || Goos(Target(i)) in ProdOn(PlatformsOf(results), m);
    hide PlatformsOf, ProdOn, InTest, Available, Partial, RunsClean, Goos, Target;
  }

  /** Exactly when each verdict is given, from the runs alone. Without a target that lists cleanly, or without any module, none
      is. Test-only and absence need every run clean. */
  lemma GivenExactly(results: seq<ListResult>, m: string, unknown: bool)
    requires |results| == RUN_COUNT
    ensures var v := VerdictOf(PlatformsOf(results), m, unknown);
      var usable := (exists t: nat :: t < TARGET_COUNT && RunsClean(results, t)) && exists i :: 0 <= i < RUN_COUNT && results[i].mods != {};
      var clean := forall i :: 0 <= i < RUN_COUNT ==> results[i].Clean();
      && (v.inBuild == Some(true) <==> usable && exists i :: 0 <= i < RUN_COUNT && m in results[i].mods)
      && (v.inBuild == Some(false) <==> usable && clean && !unknown && forall i :: 0 <= i < RUN_COUNT ==> m !in results[i].mods)
      && (v.isTestOnly == Some(false) <==> usable && exists i :: 0 <= i < RUN_COUNT && i % 2 == 0 && m in results[i].mods)
      && (v.isTestOnly == Some(true) <==>
            (usable && clean && (exists i :: 0 <= i < RUN_COUNT && m in results[i].mods)
             && forall i :: 0 <= i < RUN_COUNT && i % 2 == 0 ==> m !in results[i].mods))
  {
    AvailableRuns(results);
    PartialRuns(results);
    SeenInTest(results, m);
    SeenInProd(results, m);
    hide PlatformsOf, ProdOn, InTest, Available, Partial, RunsClean;
  }

  lemma SeenInProd(results: seq<ListResult>, m: string)
    requires |results| == RUN_COUNT
    ensures ProdOn(PlatformsOf(results), m) != [] <==> exists i :: 0 <= i < RUN_COUNT && !IsTest(i) && m in results[i].mods
  {
    var prodOn := ProdOn(PlatformsOf(results), m);
    if prodOn != [] {
      assert prodOn[0] in prodOn;
      SeenOn(results, m, prodOn[0]);
    }
    if i :| 0 <= i < RUN_COUNT && !IsTest(i) && m in results[i].mods { SeenOn(results, m, Goos(Target(i))); }
    hide PlatformsOf, ProdOn;
  }

  /** With every run clean each verdict is given, the build-tag limit apart. */
  lemma FullEvidenceDecides(results: seq<ListResult>, truth: seq<set<string>>, m: string, unknown: bool)
    requires Sound(results, truth) && forall i :: 0 <= i < RUN_COUNT ==> results[i].Clean()
    requires exists i :: 0 <= i < RUN_COUNT && truth[i] != {}
    ensures var v := VerdictOf(PlatformsOf(results), m, unknown);
      && v.isTestOnly == (if Produced(truth, m) then Some(false) else if Built(truth, m) then Some(true) else None)
      && v.inBuild == (if Built(truth, m) then Some(true) else if unknown then None else Some(false))
      && forall g: nat :: g in v.platforms <==>
           ProducedOn(truth, g, m) && exists h: nat :: h < GOOS_COUNT && !ProducedOn(truth, h, m)
  {
    PartialRuns(results);
    AvailableRuns(results);
    assert RunsClean(results, 0);
    ProdOnAgainstTruth(results, truth, m);
    InTestAgainstTruth(results, truth, m);
    hide Sound, Produced, ProducedOn, Built, Partial, ProdOn, PlatformsOf, InTest, Available;
  }

  // ---- Builds under a custom tag ----

  /** The main module's own requirements that its plain builds do not use. */
  ghost function UnusedDirect(truth: seq<set<string>>, graph: Graph): set<string> {
    set m | m in graph && graph[m].direct && !Built(truth, m)
  }

  /** A build under a custom tag can use u only if a plain build does, or the main module requires it itself, or an unused
      requirement of the main module leads to it and go.mod, when that proves anything, lists it. */
  ghost predicate TagMayUse(truth: seq<set<string>>, graph: Graph, root: string, listed: Option<set<string>>, u: string) {
    || Built(truth, u)
    || (u in graph && graph[u].direct)
    || ((listed.Some? ==> u in listed.value) && Reachable(UsedBy(graph), root, UnusedDirect(truth, graph), u))
  }

  lemma UnfoundIsUnused(results: seq<ListResult>, truth: seq<set<string>>, graph: Graph)
    requires Sound(results, truth) && !Partial(PlatformsOf(results))
    ensures forall m :: Unfound(PlatformsOf(results), m) <==> !Built(truth, m)
    ensures Seeds(PlatformsOf(results), graph) == UnusedDirect(truth, graph)
  {
    hide Sound, Produced, ProducedOn, Built, Partial, ProdOn, PlatformsOf, InTest;
    forall m ensures Unfound(PlatformsOf(results), m) <==> !Built(truth, m) {
      ProdOnAgainstTruth(results, truth, m);
      InTestAgainstTruth(results, truth, m);
    }
  }

  /** InBuild false also rules out the builds that no run looked at: none under a custom tag uses the module. */
  lemma TaggedBuildsRuledOut(results: seq<ListResult>, truth: seq<set<string>>, graph: Graph, root: string,
                             listed: Option<set<string>>, tagged: set<string>, m: string)
    requires Sound(results, truth) && m in graph
    requires forall u :: u in tagged ==> TagMayUse(truth, graph, root, listed, u)
    ensures Classified(PlatformsOf(results), graph, root, listed, m).inBuild == Some(false) ==> m !in tagged
  {
    hide Sound, Produced, ProducedOn, Built, Partial, ProdOn, PlatformsOf, InTest, Available, Seeds, UnusedDirect, Reachable;
    if !Partial(PlatformsOf(results)) { UnfoundIsUnused(results, truth, graph); }
  }

  /** With every run clean, InBuild is false for exactly the modules that no such build can use. */
  lemma InBuildFalseExactly(results: seq<ListResult>, truth: seq<set<string>>, graph: Graph, root: string,
                            listed: Option<set<string>>, m: string)
    requires Sound(results, truth) && m in graph && forall i :: 0 <= i < RUN_COUNT ==> results[i].Clean()
    requires exists i :: 0 <= i < RUN_COUNT && truth[i] != {}
    ensures Classified(PlatformsOf(results), graph, root, listed, m).inBuild == Some(false) <==>
      !TagMayUse(truth, graph, root, listed, m)
  {
    PartialRuns(results);
    UnfoundIsUnused(results, truth, graph);
    FullEvidenceDecides(results, truth, m, graph[m].direct || BelowUnknown(PlatformsOf(results), graph, root, listed, m));
    hide Sound, Produced, ProducedOn, Built, Partial, ProdOn, PlatformsOf, InTest, Available, Seeds, UnusedDirect, Reachable, VerdictOf;
  }

  /** The wider reading: a tagged build may also import another package of a requirement that plain builds do use, and through
      it a module that they do not. */
  ghost predicate TagMayReach(truth: seq<set<string>>, graph: Graph, root: string, listed: Option<set<string>>, u: string) {
    || Built(truth, u)
    || (u in graph && graph[u].direct)
    || ((listed.Some? ==> u in listed.value) && Reachable(UsedBy(graph), root, AllDirect(graph), u))
  }

  ghost function AllDirect(graph: Graph): set<string> { set m | m in graph && graph[m].direct }

  ghost function UsedDirect(truth: seq<set<string>>, graph: Graph): set<string> {
    set m | m in graph && graph[m].direct && Built(truth, m)
  }

  lemma ReachableFromEither(usedBy: Lists, root: string, a: set<string>, b: set<string>, v: string)
    ensures Reachable(usedBy, root, a + b, v) <==> Reachable(usedBy, root, a, v) || Reachable(usedBy, root, b, v)
  {
    if Reachable(usedBy, root, a + b, v) {
      var p :| Avoids(usedBy, root, a + b, p) && p[|p| - 1] == v;
      assert Avoids(usedBy, root, a, p) || Avoids(usedBy, root, b, p);
    }
    if Reachable(usedBy, root, a, v) {
      var p :| Avoids(usedBy, root, a, p) && p[|p| - 1] == v;
      assert Avoids(usedBy, root, a + b, p);
    }
    if Reachable(usedBy, root, b, v) {
      var p :| Avoids(usedBy, root, b, p) && p[|p| - 1] == v;
      assert Avoids(usedBy, root, a + b, p);
    }
  }

  /** Where InBuild false goes too far on the wider reading, exactly: go.mod lists the module, a requirement that plain builds
      use leads to it, and none that they leave unused does. */
  lemma TagGuardGap(results: seq<ListResult>, truth: seq<set<string>>, graph: Graph, root: string,
                    listed: Option<set<string>>, m: string)
    requires Sound(results, truth) && m in graph && forall i :: 0 <= i < RUN_COUNT ==> results[i].Clean()
    requires exists i :: 0 <= i < RUN_COUNT && truth[i] != {}
    ensures Classified(PlatformsOf(results), graph, root, listed, m).inBuild == Some(false) && TagMayReach(truth, graph, root, listed, m)
      <==> (&& !Built(truth, m) && !graph[m].direct && (listed.Some? ==> m in listed.value)
            && Reachable(UsedBy(graph), root, UsedDirect(truth, graph), m)
            && !Reachable(UsedBy(graph), root, UnusedDirect(truth, graph), m))
  {
    InBuildFalseExactly(results, truth, graph, root, listed, m);
    assert AllDirect(graph) == UsedDirect(truth, graph) + UnusedDirect(truth, graph);
    ReachableFromEither(UsedBy(graph), root, UsedDirect(truth, graph), UnusedDirect(truth, graph), m);
    hide Sound, Built, PlatformsOf, Classified, Reachable, UsedDirect, UnusedDirect, AllDirect;
  }

  lemma AvailableRuns(results: seq<ListResult>)
    requires |results| == RUN_COUNT
    ensures Available(PlatformsOf(results)) <==>
      (exists t: nat :: t < TARGET_COUNT && RunsClean(results, t)) && exists i :: 0 <= i < RUN_COUNT && results[i].mods != {}
  {
    hide PlatformsOf, RunsClean;
    SomeClean(results);
    SomeListed(results);
  }

  lemma SomeClean(results: seq<ListResult>)
    requires |results| == RUN_COUNT
    ensures (exists p :: p in PlatformsOf(results) && p.Clean()) <==> exists t: nat :: t < TARGET_COUNT && RunsClean(results, t)
  {
    hide PlatformsOf, RunsClean;
    var ps := PlatformsOf(results);
    if p :| p in ps && p.Clean() {
      var t: nat :| t < TARGET_COUNT && ps[t] == p;
      CleanTarget(results, t);
    }
    if t: nat :| t < TARGET_COUNT && RunsClean(results, t) {
      CleanTarget(results, t);
      assert ps[t] in ps;
    }
  }

  lemma SomeListed(results: seq<ListResult>)
    requires |results| == RUN_COUNT
    ensures (exists p :: p in PlatformsOf(results) && (p.prod != {} || p.test != {})) <==>
      exists i :: 0 <= i < RUN_COUNT && results[i].mods != {}
  {
    hide RunUnresolved, RunFailed;
    var ps := PlatformsOf(results);
    if i :| 0 <= i < RUN_COUNT && results[i].mods != {} {
      var m :| m in results[i].mods;
      var p := ps[Target(i)];
      assert p in ps && (m in p.prod || m in p.test);
    }
    if p :| p in ps && (p.prod != {} || p.test != {}) {
      var t :| 0 <= t < TARGET_COUNT && ps[t] == p;
      var m :| m in p.prod || m in p.test;
    }
  }

  /** Runs that saw more: no list shrinks and no clean run becomes unclean. */
  ghost predicate Extends(less: seq<ListResult>, more: seq<ListResult>) {
    && |less| == |more|
    && forall i :: 0 <= i < |less| ==> less[i].mods <= more[i].mods && (less[i].Clean() ==> more[i].Clean())
  }

  lemma CleanIsAll(less: seq<ListResult>, more: seq<ListResult>, truth: seq<set<string>>)
    requires Sound(less, truth) && Sound(more, truth) && Extends(less, more) && !Partial(PlatformsOf(less))
    ensures less == more
  {
    PartialRuns(less);
    hide Partial, PlatformsOf;
    forall i | 0 <= i < RUN_COUNT ensures less[i] == more[i] {
      assert less[i].Clean();
    }
  }

  lemma ExtendsAvailable(less: seq<ListResult>, more: seq<ListResult>)
    requires |less| == RUN_COUNT && Extends(less, more) && Available(PlatformsOf(less))
    ensures Available(PlatformsOf(more))
  {
    AvailableRuns(less);
    AvailableRuns(more);
    hide Available, PlatformsOf, Target;
    var t: nat :| t < TARGET_COUNT && RunsClean(less, t);
    assert RunsClean(more, t);
    var i :| 0 <= i < RUN_COUNT && less[i].mods != {};
    assert more[i].mods != {};
  }

  lemma ExtendsSeen(less: seq<ListResult>, more: seq<ListResult>, m: string)
    requires |less| == RUN_COUNT && Extends(less, more)
    ensures ProdOn(PlatformsOf(less), m) != [] ==> ProdOn(PlatformsOf(more), m) != []
    ensures InTest(PlatformsOf(less), m) ==> InTest(PlatformsOf(more), m)
  {
    SeenInTest(less, m);
    SeenInTest(more, m);
    var p := ProdOn(PlatformsOf(less), m);
    if p != [] {
      assert p[0] in p;
      SeenOn(less, m, p[0]);
      SeenOn(more, m, p[0]);
    }
    hide ProdOn, PlatformsOf, IsTest;
  }

  /** More evidence turns a nil into a verdict but never takes a verdict back or flips it. */
  lemma MoreEvidence(less: seq<ListResult>, more: seq<ListResult>, truth: seq<set<string>>, graph: Graph, root: string,
                     listed: Option<set<string>>, m: string)
    requires Sound(less, truth) && Sound(more, truth) && Extends(less, more) && m in graph
    ensures var v, w := Classified(PlatformsOf(less), graph, root, listed, m), Classified(PlatformsOf(more), graph, root, listed, m);
      && (v.isTestOnly.Some? ==> w.isTestOnly == v.isTestOnly)
      && (v.inBuild.Some? ==> w.inBuild == v.inBuild)
      && (v.platforms != [] ==> w.platforms == v.platforms)
  {
    if Partial(PlatformsOf(less)) {
      if Available(PlatformsOf(less)) { ExtendsAvailable(less, more); }
      ExtendsSeen(less, more, m);
      hide Sound, Extends, PlatformsOf, Partial, Available, ProdOn, InTest, BelowUnknown;
    } else {
      CleanIsAll(less, more, truth);
    }
  }
}
