/** Resolution of feature bundles: the dependency closure in dependency order, and the plan of what changes. */
module Bundle {
  import opened Common

  type Graph = map<string, seq<string>>

  function DependenciesOf(g: Graph, id: string): seq<string> {
    if id in g then g[id] else []
  }

  // ----- paths and cycles --------------------------------------------------------------------

  /** Each element depends on the next. */
  ghost predicate Path(g: Graph, p: seq<string>) {
    p != [] && forall k :: 0 < k < |p| ==> p[k] in DependenciesOf(g, p[k - 1])
  }

  ghost predicate Reaches(g: Graph, from: string, to: string) {
    exists p :: Path(g, p) && p[0] == from && p[|p| - 1] == to
  }

  /** A path that comes back to a component already on it. */
  ghost predicate CyclePath(g: Graph, p: seq<string>) {
    Path(g, p) && p[|p| - 1] in p[..|p| - 1]
  }

  ghost predicate CycleReachable(g: Graph, requested: seq<string>) {
    exists p :: CyclePath(g, p) && p[0] in requested
  }

  lemma {:induction false} PathSnoc(g: Graph, p: seq<string>, next: string)
    requires Path(g, p) && next in DependenciesOf(g, p[|p| - 1])
    ensures Path(g, p + [next])
  {
  }

  lemma {:induction false} ReachesStep(g: Graph, from: string, via: string, to: string)
    requires via in DependenciesOf(g, from) && Reaches(g, via, to)
    ensures Reaches(g, from, to)
  {
    var p :| Path(g, p) && p[0] == via && p[|p| - 1] == to;
    var q := [from] + p;
    forall k | 0 < k < |q| ensures q[k] in DependenciesOf(g, q[k - 1]) {
      assert q[k] == p[k - 1] && (k > 1 ==> q[k - 1] == p[k - 2]);
    }
    assert q[|q| - 1] == to;
  }

  lemma {:induction false} ReachesItself(g: Graph, id: string)
    ensures Reaches(g, id, id)
  {
    assert Path(g, [id]);
  }

  // ----- ordered lists -----------------------------------------------------------------------

  /** No repeats, and every component comes after all it depends on. */
  ghost predicate Ordered(g: Graph, list: seq<string>) {
    && (forall i, j :: 0 <= i < j < |list| ==> list[i] != list[j])
    && (forall i, d :: 0 <= i < |list| && d in DependenciesOf(g, list[i]) ==> d in list[..i])
  }

  lemma {:induction false} OrderedSnoc(g: Graph, list: seq<string>, id: string)
    requires Ordered(g, list) && id !in list && (forall d :: d in DependenciesOf(g, id) ==> d in list)
    ensures Ordered(g, list + [id])
  {
    var longer := list + [id];
    forall i, d | 0 <= i < |longer| && d in DependenciesOf(g, longer[i]) ensures d in longer[..i] {
      if i < |list| {
        assert longer[i] == list[i] && longer[..i] == list[..i];
      } else {
        assert longer[..i] == list;
      }
    }
  }

  /** Along a path inside an ordered list, positions strictly fall. */
  lemma {:induction false} PathFalls(g: Graph, list: seq<string>, p: seq<string>, at: nat, k: nat) returns (pos: nat)
    requires Ordered(g, list) && Path(g, p) && k < |p| && at < |list| && list[at] == p[0]
    ensures pos < |list| && list[pos] == p[k] && pos + k <= at
    decreases k
  {
    if k == 0 {
      pos := at;
    } else {
      var before := PathFalls(g, list, p, at, k - 1);
      assert p[k] in list[..before];
      pos :| 0 <= pos < before && list[pos] == p[k];
    }
  }

  /** From inside an ordered list no cycle is reachable. */
  lemma {:induction false} OrderedHasNoCycle(g: Graph, list: seq<string>, p: seq<string>)
    requires Ordered(g, list) && Path(g, p) && p[0] in list
    ensures !CyclePath(g, p)
  {
    var at :| 0 <= at < |list| && list[at] == p[0];
    var last := |p| - 1;
    if p[last] in p[..last] {
      var i :| 0 <= i < last && p[..last][i] == p[last];
      var first := PathFalls(g, list, p, at, i);
      var tail := p[i..];
      assert Path(g, tail) && tail[0] == p[i];
      var again := PathFalls(g, list, tail, first, last - i);
      assert false;
    }
  }

  // ----- resolution --------------------------------------------------------------------------

  function Members(s: seq<string>): set<string> {
    set x | x in s
  }

  class Resolver {
    const dependencies: Graph
    /** A JavaScript Set: no repeats, kept in insertion order. */
    var result: seq<string>

    constructor (dependencies: Graph)
      ensures this.dependencies == dependencies && result == []
    {
      this.dependencies := dependencies;
      result := [];
    }

    /**
      Visits one component; `stack` is the chain of dependents that led here. Returns the offending chain
      where the source throws.
     */
    method Visit(id: string, stack: seq<string>) returns (cycle: Option<seq<string>>)
      requires Ordered(dependencies, result)
      requires Path(dependencies, stack + [id]) && Members(stack) <= dependencies.Keys
      modifies this
      ensures Ordered(dependencies, result) && old(result) <= result
      ensures forall x :: x in result ==> x in old(result) || Reaches(dependencies, id, x)
      ensures cycle.None? ==> id in result
      ensures cycle.Some? ==> CyclePath(dependencies, cycle.value) && stack + [id] <= cycle.value
      decreases dependencies.Keys - Members(stack)
    {
      var chain := stack + [id];
      if id in stack {
        assert chain[..|chain| - 1] == stack;
        return Some(chain);
      }
      var wanted := DependenciesOf(dependencies, id);
      for k := 0 to |wanted|
        invariant Ordered(dependencies, result) && old(result) <= result
        invariant forall x :: x in result ==> x in old(result) || Reaches(dependencies, id, x)
        invariant forall j :: 0 <= j < k ==> wanted[j] in result
      {
        assert Members(chain) == Members(stack) + {id} && id in dependencies.Keys;
        PathSnoc(dependencies, chain, wanted[k]);
        assert chain + [wanted[k]] == stack + [id] + [wanted[k]];
        ghost var before := result;
        cycle := Visit(wanted[k], chain);
        forall x | x in result && x !in before ensures Reaches(dependencies, id, x) {
          ReachesStep(dependencies, id, wanted[k], x);
        }
        if cycle.Some? { return; }
      }
      cycle := None;
      if id !in result {
        OrderedSnoc(dependencies, result, id);
        ReachesItself(dependencies, id);
        result := result + [id];
      }
    }
  }

  /**
    Fails exactly when a cycle is reachable from the request. Otherwise the list has no repeats, holds every
    requested component and nothing that is not reachable from one, and lists dependencies before dependents.
   */
  method ResolveDependencies(dependencies: Graph, requested: seq<string>) returns (r: Result<seq<string>, seq<string>>)
    ensures r.Err? <==> CycleReachable(dependencies, requested)
    ensures r.Err? ==> CyclePath(dependencies, r.error) && r.error[0] in requested
    ensures r.Ok? ==> Ordered(dependencies, r.value) && Members(requested) <= Members(r.value)
    ensures r.Ok? ==> forall x :: x in r.value ==> exists q :: q in requested && Reaches(dependencies, q, x)
  {
    var resolver := new Resolver(dependencies);
    for k := 0 to |requested|
      invariant resolver.dependencies == dependencies && Ordered(dependencies, resolver.result)
      invariant forall j :: 0 <= j < k ==> requested[j] in resolver.result
      invariant forall x :: x in resolver.result ==> exists q :: q in requested && Reaches(dependencies, q, x)
    {
      assert [] + [requested[k]] == [requested[k]];
      ghost var before := resolver.result;
      var cycle := resolver.Visit(requested[k], []);
      forall x | x in resolver.result ensures exists q :: q in requested && Reaches(dependencies, q, x) {
        if x !in before { assert requested[k] in requested && Reaches(dependencies, requested[k], x); }
      }
      if cycle.Some? {
        assert cycle.value[0] == requested[k];
        return Err(cycle.value);
      }
    }
    forall p | CyclePath(dependencies, p) && p[0] in requested ensures false {
      OrderedHasNoCycle(dependencies, resolver.result, p);
    }
    r := Ok(resolver.result);
  }

  /** Closed under dependencies. */
  ghost predicate Closed(g: Graph, s: set<string>) {
    forall x, d :: x in s && d in DependenciesOf(g, x) ==> d in s
  }

  lemma {:induction false} ClosedContainsPaths(g: Graph, s: set<string>, p: seq<string>, k: nat)
    requires Closed(g, s) && Path(g, p) && p[0] in s && k < |p|
    ensures p[k] in s
  {
    if k > 0 {
      ClosedContainsPaths(g, s, p, k - 1);
    }
  }

  /** What resolution returns is the least closed superset of the request. */
  lemma {:induction false} ResolvedIsLeastClosed(g: Graph, requested: seq<string>, list: seq<string>, other: set<string>)
    requires Ordered(g, list) && Members(requested) <= Members(list)
    requires forall x :: x in list ==> exists q :: q in requested && Reaches(g, q, x)
    ensures Closed(g, Members(list))
    ensures Closed(g, other) && Members(requested) <= other ==> Members(list) <= other
  {
    if Closed(g, other) && Members(requested) <= other {
      forall x | x in list ensures x in other {
        var q :| q in requested && Reaches(g, q, x);
        var p :| Path(g, p) && p[0] == q && p[|p| - 1] == x;
        assert q in Members(requested);
        ClosedContainsPaths(g, other, p, |p| - 1);
      }
    }
  }

  // ----- planning ----------------------------------------------------------------------------

  function Without(list: seq<string>, drop: set<string>): seq<string> {
    if list == [] then [] else (if list[0] in drop then [] else [list[0]]) + Without(list[1..], drop)
  }

  function Within(list: seq<string>, keep: set<string>): seq<string> {
    if list == [] then [] else (if list[0] in keep then [list[0]] else []) + Within(list[1..], keep)
  }

  lemma {:induction false} FilterMembers(list: seq<string>, s: set<string>)
    ensures Members(Without(list, s)) == Members(list) - s && Members(Within(list, s)) == Members(list) * s
  {
    if list != [] {
      FilterMembers(list[1..], s);
      assert Members(list) == {list[0]} + Members(list[1..]);
      var a := if list[0] in s then [] else [list[0]];
      var b := if list[0] in s then [list[0]] else [];
      assert Members(Without(list, s)) == Members(a) + Members(Without(list[1..], s));
      assert Members(Within(list, s)) == Members(b) + Members(Within(list[1..], s));
    }
  }

  datatype Plan = Plan(requested: seq<string>, resolved: seq<string>, add: seq<string>, remove: seq<string>, kept: seq<string>)

  datatype PlanError = EmptyCustom | DependencyCycle(chain: seq<string>) | UnknownComponent(id: string)

  /** A custom plan needs components; a plan with a component nobody knows is refused. */
  method MakePlan(dependencies: Graph, known: set<string>, current: seq<string>, custom: bool, requested: seq<string>)
    returns (r: Result<Plan, PlanError>)
    ensures r.Ok? <==> (
      && !(custom && requested == []) && !CycleReachable(dependencies, requested)
      && forall q, x :: q in requested && Reaches(dependencies, q, x) ==> x in known)
    ensures r.Ok? ==>
      var p := r.value;
      && p.requested == requested && Ordered(dependencies, p.resolved) && Members(requested) <= Members(p.resolved)
      && (forall x :: x in p.resolved ==> exists q :: q in requested && Reaches(dependencies, q, x))
      && p.add == Without(p.resolved, Members(current))
      && p.remove == Without(current, Members(p.resolved))
      && p.kept == Within(p.resolved, Members(current))
  {
    if custom && requested == [] { return Err(EmptyCustom); }
    var resolved := ResolveDependencies(dependencies, requested);
    if resolved.Err? { return Err(DependencyCycle(resolved.error)); }
    var list := resolved.value;
    for k := 0 to |list|
      invariant forall j :: 0 <= j < k ==> list[j] in known
    {
      if list[k] !in known {
        assert list[k] in list;
        return Err(UnknownComponent(list[k]));
      }
    }
    forall q, x | q in requested && Reaches(dependencies, q, x) ensures x in known {
      ResolvedIsLeastClosed(dependencies, requested, list, {});
      var p :| Path(dependencies, p) && p[0] == q && p[|p| - 1] == x;
      assert q in Members(requested);
      ClosedContainsPaths(dependencies, Members(list), p, |p| - 1);
      assert x in list;
    }
    var was, next := Members(current), Members(list);
    r := Ok(Plan(requested, list, Without(list, was), Without(current, next), Within(list, was)));
  }

  /** Applying a plan to the current components gives exactly the resolved ones; nothing is both added and retained. */
  lemma {:induction false} PlanReachesTarget(current: seq<string>, resolved: seq<string>)
    ensures var add, remove, kept := Without(resolved, Members(current)), Without(current, Members(resolved)),
          Within(resolved, Members(current));
      && Members(current) - Members(remove) + Members(add) == Members(resolved)
      && Members(kept) == Members(current) - Members(remove)
      && Members(add) !! Members(current) && Members(remove) !! Members(resolved)
  {
    FilterMembers(resolved, Members(current));
    FilterMembers(current, Members(resolved));
  }

  // ----- the shipped table -------------------------------------------------------------------

  const DEPENDENCIES: Graph := map[
    "webui" := ["durable-harness"], "delegation" := ["durable-harness"], "workspaces" := ["durable-harness"],
    "memory" := ["durable-harness"], "skills" := ["durable-harness"], "mcp-client" := ["durable-harness"],
    "mcp-server" := ["durable-harness"], "scheduler" := ["delegation"], "channels" := ["delegation"],
    "webhook" := ["channels"], "browser" := ["webui"], "execution-nodes" := ["durable-harness"]]

  function Level(id: string): nat {
    if id == "webhook" then 3
    else if id == "scheduler" || id == "channels" || id == "browser" then 2
    else if id in DEPENDENCIES then 1
    else 0
  }

  lemma {:induction false} DependenciesAreLower(id: string, d: string)
    requires d in DependenciesOf(DEPENDENCIES, id)
    ensures Level(d) < Level(id)
  {
  }

  lemma {:induction false} LevelsFall(p: seq<string>, i: nat, k: nat)
    requires Path(DEPENDENCIES, p) && i < k < |p|
    ensures Level(p[k]) < Level(p[i])
    decreases k
  {
    DependenciesAreLower(p[k - 1], p[k]);
    if i < k - 1 {
      LevelsFall(p, i, k - 1);
    }
  }

  /** With the table the runtime ships, resolution never fails. */
  lemma {:induction false} ShippedTableNeverFails(requested: seq<string>)
    ensures !CycleReachable(DEPENDENCIES, requested)
  {
    forall p | CyclePath(DEPENDENCIES, p) ensures false {
      var last := |p| - 1;
      var i :| 0 <= i < last && p[..last][i] == p[last];
      LevelsFall(p, i, last);
    }
  }

  const DEFAULT_FEATURES := ["durable-harness", "filesystem", "shell", "git", "web", "memory", "skills", "delegation",
    "workspaces", "mcp-client", "mcp-importer", "webhook", "webui"]

  /** The "default" preset is not closed: it asks for webhooks without channels, so resolving it adds channels. */
  lemma {:induction false} DefaultPresetGainsChannels(s: set<string>)
    requires Closed(DEPENDENCIES, s) && Members(DEFAULT_FEATURES) <= s
    ensures "channels" in s && "channels" !in DEFAULT_FEATURES
  {
    assert DEFAULT_FEATURES[11] == "webhook" && "webhook" in Members(DEFAULT_FEATURES);
    assert DependenciesOf(DEPENDENCIES, "webhook")[0] == "channels";
  }
}
