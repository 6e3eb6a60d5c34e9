/** Change-aware gate planning: the reverse dependency closure and fail-closed routing. */
module GatePlan {
  import opened Prelude
  import opened Ordering

  type Graph = map<string, set<string>>

  // ---- reverse closure ----

  predicate DependsOn(dependencies: Graph, package: string, dependency: string) {
    package in dependencies && dependency in dependencies[package]
  }

  /** A chain of dependency edges. */
  predicate Chain(dependencies: Graph, path: seq<string>) {
    path != [] && forall i :: 0 <= i < |path| - 1 ==> DependsOn(dependencies, path[i], path[i + 1])
  }

  /** The package is changed, or depends, directly or through others, on one that is. */
  ghost predicate Reaches(dependencies: Graph, package: string, changed: set<string>) {
    exists path :: Chain(dependencies, path) && path[0] == package && path[|path| - 1] in changed
  }

  /** Every package that depends on one of these is among them. */
  ghost predicate Closed(dependencies: Graph, affected: set<string>, settled: set<string>) {
    forall package, dependency :: dependency in settled && DependsOn(dependencies, package, dependency) ==> package in affected
  }

  lemma {:induction false} ClosedHoldsReaching(dependencies: Graph, affected: set<string>, path: seq<string>)
    requires Closed(dependencies, affected, affected) && Chain(dependencies, path) && path[|path| - 1] in affected
    ensures path[0] in affected
    decreases |path|
  {
    if |path| > 1 {
      var rest := path[1..];
      forall i | 0 <= i < |rest| - 1
        ensures DependsOn(dependencies, rest[i], rest[i + 1])
      {
        assert DependsOn(dependencies, path[i + 1], path[i + 1 + 1]);
      }
      ClosedHoldsReaching(dependencies, affected, rest);
      assert DependsOn(dependencies, path[0], path[1]);
    }
  }

  lemma ReachesOneMore(dependencies: Graph, package: string, dependency: string, changed: set<string>)
    requires DependsOn(dependencies, package, dependency) && Reaches(dependencies, dependency, changed)
    ensures Reaches(dependencies, package, changed)
  {
    var path :| Chain(dependencies, path) && path[0] == dependency && path[|path| - 1] in changed;
    var longer := [package] + path;
    forall i | 0 <= i < |longer| - 1
      ensures DependsOn(dependencies, longer[i], longer[i + 1])
    {
      if i > 0 { assert longer[i] == path[i - 1] && longer[i + 1] == path[i]; }
    }
    assert Chain(dependencies, longer);
  }

  lemma ChangedReaches(dependencies: Graph, changed: set<string>, package: string)
    requires package in changed
    ensures Reaches(dependencies, package, changed)
  {
    assert Chain(dependencies, [package]);
  }

  function Dependents(dependencies: Graph, dependency: string): (r: set<string>)
    ensures forall p :: p in r <==> DependsOn(dependencies, p, dependency)
  {
    set p | p in dependencies && dependency in dependencies[p]
  }

  ghost predicate AllReach(dependencies: Graph, packages: set<string>, changed: set<string>) {
    forall p :: p in packages ==> Reaches(dependencies, p, changed)
  }

  function Waiting(queue: seq<string>): set<string> {
    set q | q in queue
  }

  lemma WaitingSnoc(queue: seq<string>, p: string)
    ensures Waiting(queue + [p]) == Waiting(queue) + {p}
  {
  }

  lemma WaitingTail(queue: seq<string>)
    requires queue != []
    ensures Waiting(queue) == {queue[0]} + Waiting(queue[1..])
  {
    assert queue == [queue[0]] + queue[1..];
  }

  function SortedDependents(dependencies: Graph, dependency: string): (r: seq<string>)
    ensures Waiting(r) == Dependents(dependencies, dependency)
  {
    TextOrders();
    SortedSet(Dependents(dependencies, dependency), TextLe)
  }

  lemma TakeOne(affected: set<string>, queue: seq<string>, taken: seq<string>, affected': set<string>, queue': seq<string>, p: string)
    requires affected' == affected + Waiting(taken) && Waiting(queue') == Waiting(queue) + (affected' - affected)
    ensures p in affected' ==> affected' == affected + Waiting(taken + [p])
    ensures p !in affected' ==>
              && affected' + {p} == affected + Waiting(taken + [p])
              && Waiting(queue' + [p]) == Waiting(queue) + (affected' + {p} - affected)
              && |affected' + {p}| == |affected'| + 1
  {
    WaitingSnoc(taken, p);
    WaitingSnoc(queue', p);
  }

  /** The dependents of one package, each queued the first time it is seen. */
  method TakeDependents(dependencies: Graph, affected: set<string>, queue: seq<string>, dependency: string)
    returns (affected': set<string>, queue': seq<string>)
    ensures affected' == affected + Dependents(dependencies, dependency)
    ensures Waiting(queue') == Waiting(queue) + (affected' - affected)
    ensures |queue'| + |affected| == |queue| + |affected'|
  {
    affected', queue' := affected, queue;
    var dependents := SortedDependents(dependencies, dependency);
    for i := 0 to |dependents|
      invariant affected' == affected + Waiting(dependents[..i])
      invariant Waiting(queue') == Waiting(queue) + (affected' - affected)
      invariant |queue'| + |affected| == |queue| + |affected'|
    {
      TakeSnoc(dependents, i);
      TakeOne(affected, queue, dependents[..i], affected', queue', dependents[i]);
      if dependents[i] !in affected' {
        affected' := affected' + {dependents[i]};
        queue' := queue' + [dependents[i]];
      }
    }
    TakeAll(dependents);
  }

  /** What is waiting is affected; what is affected and no longer waiting has been followed up. */
  ghost predicate Working(dependencies: Graph, changed: set<string>, affected: set<string>, waiting: set<string>) {
    && changed <= affected <= changed + dependencies.Keys && waiting <= affected
    && AllReach(dependencies, affected, changed)
    && Closed(dependencies, affected, affected - waiting)
  }

  lemma DependentsReach(dependencies: Graph, changed: set<string>, affected: set<string>, dependency: string)
    requires AllReach(dependencies, affected, changed) && dependency in affected
    ensures AllReach(dependencies, affected + Dependents(dependencies, dependency), changed)
  {
    forall p | p in Dependents(dependencies, dependency)
      ensures Reaches(dependencies, p, changed)
    {
      ReachesOneMore(dependencies, p, dependency, changed);
    }
  }

  lemma WorkingStep(dependencies: Graph, changed: set<string>, affected: set<string>, waiting: set<string>, dependency: string, rest: set<string>)
    requires Working(dependencies, changed, affected, waiting) && dependency in waiting && waiting == {dependency} + rest
    ensures var affected' := affected + Dependents(dependencies, dependency);
            Working(dependencies, changed, affected', rest + (affected' - affected))
  {
    var affected' := affected + Dependents(dependencies, dependency);
    DependentsReach(dependencies, changed, affected, dependency);
    forall package, d | d in affected' - (rest + (affected' - affected)) && DependsOn(dependencies, package, d)
      ensures package in affected'
    {
      if d != dependency { assert d in affected - waiting; }
    }
  }

  lemma NoMoreThan(small: set<string>, large: set<string>)
    requires small <= large
    ensures |small| <= |large|
  {
    assert large == small + (large - small);
  }

  lemma ClosedIsAll(dependencies: Graph, changed: set<string>, affected: set<string>)
    requires Working(dependencies, changed, affected, {})
    ensures forall p :: p in affected <==> Reaches(dependencies, p, changed)
  {
    assert affected - {} == affected;
    forall p | Reaches(dependencies, p, changed)
      ensures p in affected
    {
      var path :| Chain(dependencies, path) && path[0] == p && path[|path| - 1] in changed;
      ClosedHoldsReaching(dependencies, affected, path);
    }
  }

  lemma BeginsWorking(dependencies: Graph, changed: set<string>)
    ensures Working(dependencies, changed, changed, changed)
  {
    forall p | p in changed
      ensures Reaches(dependencies, p, changed)
    {
      ChangedReaches(dependencies, changed, p);
    }
  }

  /** `reverse_closure`: exactly the packages that reach a changed one, cycles or not. */
  method ReverseClosure(changed: set<string>, dependencies: Graph) returns (affected: set<string>)
    ensures forall p :: p in affected <==> Reaches(dependencies, p, changed)
  {
    TextOrders();
    var queue := SortedSet(changed, TextLe);
    assert Waiting(queue) == changed;
    affected := changed;
    BeginsWorking(dependencies, changed);
    while queue != []
      invariant Working(dependencies, changed, affected, Waiting(queue))
      decreases |changed + dependencies.Keys| - |affected| + |queue|
    {
      WaitingTail(queue);
      WorkingStep(dependencies, changed, affected, Waiting(queue), queue[0], Waiting(queue[1..]));
      affected, queue := TakeDependents(dependencies, affected, queue[1..], queue[0]);
      NoMoreThan(affected, changed + dependencies.Keys);
    }
    assert Waiting(queue) == {};
    ClosedIsAll(dependencies, changed, affected);
  }

  /** Affected packages of a union are the union of the affected packages. */
  lemma ReachesUnion(dependencies: Graph, package: string, left: set<string>, right: set<string>)
    ensures Reaches(dependencies, package, left + right) <==>
            Reaches(dependencies, package, left) || Reaches(dependencies, package, right)
  {
    if Reaches(dependencies, package, left) {
      var path :| Chain(dependencies, path) && path[0] == package && path[|path| - 1] in left;
      assert path[|path| - 1] in left + right;
    }
    if Reaches(dependencies, package, right) {
      var path :| Chain(dependencies, path) && path[0] == package && path[|path| - 1] in right;
      assert path[|path| - 1] in left + right;
    }
  }

  // ---- routing ----

  datatype Gate =
    | Actions | Vendored | Publish | Rustfmt | Rust | Valkey | Neo4j | Nats | EmbeddedBinary | EmbeddedSqlite
    | Conformance | AgenticContext | AgenticEventContext | FullJourney | McpReal | Container | Helm | Coverage | CodeQl

  /** Where a path outside every crate leads: to some gates, perhaps none, to a full run, or nowhere known. */
  datatype Route = ToGates(gates: set<Gate>) | ToFull | Unknown

  /** The workspace and the routing table, as the planner finds them: each package's directory with
      its closing slash, the dependency edges, and what the path tests answer. */
  datatype Workspace = Workspace(
    packages: map<string, string>, dependencies: Graph,
    fullRoot: string -> bool, docs: string -> bool, route: string -> Route,
    manifest: string -> bool, contract: string -> bool, triggers: Gate -> set<string>)

  datatype Plan = Plan(full: bool, changed: set<string>, affected: set<string>, gates: set<Gate>)

  function AllGates(): set<Gate> {
    set g: Gate | IsGate(g)
  }

  predicate IsGate(g: Gate) { true }

  function FullPlan(w: Workspace): Plan {
    Plan(true, w.packages.Keys, w.packages.Keys, AllGates())
  }

  predicate InCrate(w: Workspace, package: string, path: string) {
    package in w.packages && w.packages[package] <= path && !w.docs(path)
  }

  predicate InSomeCrate(w: Workspace, path: string) {
    exists package :: package in w.packages && InCrate(w, package, path)
  }

  /** `path.removeprefix('./')`. */
  function Normal(path: string): string {
    if "./" <= path then path[2..] else path
  }

  function Normalized(paths: seq<string>): set<string> {
    set p | p in paths && p != "" :: Normal(p)
  }

  /** The path alone is reason enough for a full run. */
  predicate ForcesFull(w: Workspace, path: string) {
    w.fullRoot(path) || (!InSomeCrate(w, path) && (w.route(path).ToFull? || w.route(path).Unknown?))
  }

  function ChangedPackages(w: Workspace, paths: set<string>): set<string> {
    set package | package in w.packages && exists path :: path in paths && InCrate(w, package, path)
  }

  /** What changed crates turn on, given the packages they affect. */
  ghost predicate CrateGate(w: Workspace, gate: Gate, paths: set<string>) {
    && ChangedPackages(w, paths) != {}
    && match gate
       case Rustfmt => true
       case Rust => true
       case Coverage => true
       case CodeQl => true
       case Publish => exists path :: path in paths && w.manifest(path) && InSomeCrate(w, path)
       case Vendored => exists path :: path in paths && w.contract(path)
       case _ => exists package :: package in w.triggers(gate) && Reaches(w.dependencies, package, ChangedPackages(w, paths))
  }

  predicate RouteGate(w: Workspace, gate: Gate, path: string) {
    !InSomeCrate(w, path) && w.route(path).ToGates? && gate in w.route(path).gates
  }

  /** A gate runs exactly when something asks for it. */
  ghost predicate GateOn(w: Workspace, gate: Gate, paths: set<string>) {
    || (exists path :: path in paths && ForcesFull(w, path))
    || CrateGate(w, gate, paths)
    || (exists path :: path in paths && RouteGate(w, gate, path))
  }

  /** Gates any changed crate turns on, and the two its paths turn on. */
  method PathGates(w: Workspace, paths: set<string>) returns (gates: set<Gate>)
    requires ChangedPackages(w, paths) != {}
    ensures forall g :: g in gates <==> Always(g) && CrateGate(w, g, paths)
  {
    gates := {Rustfmt, Rust, Coverage, CodeQl};
    if exists path :: path in paths && w.manifest(path) && InSomeCrate(w, path) {
      gates := gates + {Publish};
    }
    if exists path :: path in paths && w.contract(path) {
      gates := gates + {Vendored};
    }
  }

  /** The gates of `affected`, once the closure is computed. */
  method CrateGates(w: Workspace, paths: set<string>, affected: set<string>) returns (gates: set<Gate>)
    requires ChangedPackages(w, paths) != {}
    requires forall p :: p in affected <==> Reaches(w.dependencies, p, ChangedPackages(w, paths))
    ensures forall g :: g in gates <==> CrateGate(w, g, paths)
  {
    gates := PathGates(w, paths);
    forall g | !Always(g)
      ensures g in Triggered(w, affected) <==> CrateGate(w, g, paths)
    {
      TriggeredIff(w, paths, affected, g);
    }
    gates := gates + Triggered(w, affected);
  }

  predicate Always(g: Gate) {
    g.Rustfmt? || g.Rust? || g.Coverage? || g.CodeQl? || g.Publish? || g.Vendored?
  }

  function Triggered(w: Workspace, affected: set<string>): set<Gate> {
    set g | g in AllGates() && !Always(g) && w.triggers(g) * affected != {}
  }

  lemma MeetsIff(left: set<string>, right: set<string>)
    ensures left * right != {} <==> exists p :: p in left && p in right
  {
    if left * right != {} {
      var p :| p in left * right;
      assert p in left && p in right;
    }
    if exists p :: p in left && p in right {
      var p :| p in left && p in right;
      assert p in left * right;
    }
  }

  lemma TriggeredIff(w: Workspace, paths: set<string>, affected: set<string>, g: Gate)
    requires !Always(g) && ChangedPackages(w, paths) != {}
    requires forall p :: p in affected <==> Reaches(w.dependencies, p, ChangedPackages(w, paths))
    ensures g in Triggered(w, affected) <==> CrateGate(w, g, paths)
  {
    MeetsIff(w.triggers(g), affected);
    assert g in Triggered(w, affected) <==> w.triggers(g) * affected != {};
  }

  /** The routes of the paths outside every crate, one path after the other; a path that leads
      nowhere known ends in a full run. */
  method TakeRoutes(w: Workspace, sorted: seq<string>) returns (r: Option<set<Gate>>)
    requires forall path :: path in sorted ==> !w.fullRoot(path)
    ensures r.None? <==> exists path :: path in sorted && ForcesFull(w, path)
    ensures r.Some? ==> forall g :: g in r.value <==> exists path :: path in sorted && RouteGate(w, g, path)
  {
    var gates: set<Gate> := {};
    for i := 0 to |sorted|
      invariant forall path :: path in sorted[..i] ==> !ForcesFull(w, path)
      invariant forall g :: g in gates <==> exists path :: path in sorted[..i] && RouteGate(w, g, path)
    {
      TakeSnoc(sorted, i);
      var path := sorted[i];
      assert path in sorted;
      ghost var before := gates;
      if !InSomeCrate(w, path) {
        match w.route(path) {
          case ToGates(more) => gates := gates + more;
          case ToFull => return None;
          case Unknown => return None;
        }
      }
      RoutesSnoc(w, sorted[..i], path, before, gates);
    }
    TakeAll(sorted);
    return Some(gates);
  }

  lemma RoutesSnoc(w: Workspace, done: seq<string>, path: string, before: set<Gate>, gates: set<Gate>)
    requires forall g :: g in before <==> exists p :: p in done && RouteGate(w, g, p)
    requires forall g :: g in gates <==> g in before || RouteGate(w, g, path)
    ensures forall g :: g in gates <==> exists p :: p in done + [path] && RouteGate(w, g, p)
  {
    forall g
      ensures g in gates <==> exists p :: p in done + [path] && RouteGate(w, g, p)
    {
      if g in before {
        var p :| p in done && RouteGate(w, g, p);
        assert p in done + [path];
      }
      if RouteGate(w, g, path) { assert path in done + [path]; }
    }
  }

  /** What a plan of these paths is. */
  ghost predicate Plans(w: Workspace, paths: set<string>, plan: Plan) {
    && (plan.full <==> exists path :: path in paths && ForcesFull(w, path))
    && (plan.full ==> plan == FullPlan(w))
    && (!plan.full ==> plan.changed == ChangedPackages(w, paths))
    && (!plan.full ==> forall p :: p in plan.affected <==> Reaches(w.dependencies, p, plan.changed))
    && (forall g :: g in plan.gates <==> GateOn(w, g, paths))
  }

  lemma FullPlans(w: Workspace, paths: set<string>, path: string)
    requires path in paths && ForcesFull(w, path)
    ensures Plans(w, paths, FullPlan(w))
  {
  }

  /** No path forces a full run: the changed crates and the routes decide. */
  method PlanNarrow(w: Workspace, paths: set<string>, routed: set<Gate>) returns (plan: Plan)
    requires forall path :: path in paths ==> !ForcesFull(w, path)
    requires forall g :: g in routed <==> exists path :: path in paths && RouteGate(w, g, path)
    ensures Plans(w, paths, plan) && !plan.full
  {
    var changed := ChangedPackages(w, paths);
    var affected := ReverseClosure(changed, w.dependencies);
    var gates: set<Gate> := {};
    if changed != {} {
      gates := CrateGates(w, paths, affected);
    }
    plan := Plan(false, changed, affected, gates + routed);
    forall g
      ensures g in plan.gates <==> GateOn(w, g, paths)
    {
      assert g in gates <==> CrateGate(w, g, paths);
    }
  }

  /** `plan_for`. */
  method PlanFor(w: Workspace, paths: seq<string>, forceFull: bool) returns (plan: Plan)
    ensures forceFull || paths == [] ==> plan == FullPlan(w)
    ensures !forceFull && paths != [] ==> Plans(w, Normalized(paths), plan)
  {
    if forceFull || paths == [] {
      return FullPlan(w);
    }
    var normalized := Normalized(paths);
    if exists path :: path in normalized && w.fullRoot(path) {
      var path :| path in normalized && w.fullRoot(path);
      FullPlans(w, normalized, path);
      return FullPlan(w);
    }
    var routed := TakeRoutes(w, SortedPaths(normalized));
    if routed.None? {
      ghost var path :| path in normalized && ForcesFull(w, path);
      FullPlans(w, normalized, path);
      return FullPlan(w);
    }
    plan := PlanNarrow(w, normalized, routed.value);
  }

  function SortedPaths(paths: set<string>): (r: seq<string>)
    ensures forall p :: p in r <==> p in paths
  {
    TextOrders();
    SortedSet(paths, TextLe)
  }

  // ---- fail closed ----

  lemma ChangedGrows(w: Workspace, paths: set<string>, more: set<string>)
    requires paths <= more
    ensures ChangedPackages(w, paths) <= ChangedPackages(w, more)
  {
  }

  lemma CrateGateGrows(w: Workspace, g: Gate, paths: set<string>, more: set<string>)
    requires paths <= more && CrateGate(w, g, paths)
    ensures CrateGate(w, g, more)
  {
    ChangedGrows(w, paths, more);
    if !Always(g) {
      var p :| p in w.triggers(g) && Reaches(w.dependencies, p, ChangedPackages(w, paths));
      ReachesUnion(w.dependencies, p, ChangedPackages(w, paths), ChangedPackages(w, more));
      assert ChangedPackages(w, paths) + ChangedPackages(w, more) == ChangedPackages(w, more);
    }
  }

  /** Adding paths never turns a gate off. */
  lemma GatesGrow(w: Workspace, g: Gate, paths: set<string>, more: set<string>)
    requires paths <= more && GateOn(w, g, paths)
    ensures GateOn(w, g, more)
  {
    if exists path :: path in paths && ForcesFull(w, path) {
      var path :| path in paths && ForcesFull(w, path);
      assert path in more;
    } else if CrateGate(w, g, paths) {
      CrateGateGrows(w, g, paths, more);
    } else {
      var path :| path in paths && RouteGate(w, g, path);
      assert path in more;
    }
  }

  /** Planning a longer list after a shorter one that is not empty: no gate is lost. */
  method PlanBoth(w: Workspace, paths: seq<string>, added: seq<string>) returns (less: Plan, more: Plan)
    requires paths != []
    ensures less.gates <= more.gates && (less.full ==> more.full)
  {
    less := PlanFor(w, paths, false);
    more := PlanFor(w, paths + added, false);
    assert Normalized(paths) <= Normalized(paths + added) by {
      forall p | p in Normalized(paths)
        ensures p in Normalized(paths + added)
      {
        var q :| q in paths && q != "" && Normal(q) == p;
        assert q in paths + added;
      }
    }
    forall g | g in less.gates
      ensures g in more.gates
    {
      GatesGrow(w, g, Normalized(paths), Normalized(paths + added));
    }
  }

  /** One path that is in no crate and on no route turns every gate on. */
  lemma UnknownTurnsAllOn(w: Workspace, paths: set<string>, path: string, g: Gate)
    requires path in paths && !InSomeCrate(w, path) && w.route(path).Unknown?
    ensures GateOn(w, g, paths)
  {
    assert ForcesFull(w, path);
  }

  /** No gate at all is asked for exactly when no path is left, or every path left is outside the
      crates and routed to no gate: a list of empty paths, unlike an empty list, plans nothing. */
  lemma NothingPlannedIff(w: Workspace, paths: set<string>)
    ensures (forall g :: !GateOn(w, g, paths)) <==>
            forall path :: path in paths ==> !w.fullRoot(path) && !InSomeCrate(w, path) && w.route(path) == ToGates({})
  {
    if forall path :: path in paths ==> !w.fullRoot(path) && !InSomeCrate(w, path) && w.route(path) == ToGates({}) {
      NoChange(w, paths);
    } else {
      var path :| path in paths && !(!w.fullRoot(path) && !InSomeCrate(w, path) && w.route(path) == ToGates({}));
      if ForcesFull(w, path) {
        assert GateOn(w, Rust, paths);
      } else if InSomeCrate(w, path) {
        var package :| package in w.packages && InCrate(w, package, path);
        assert package in ChangedPackages(w, paths);
        assert GateOn(w, Rust, paths);
      } else {
        var g :| g in w.route(path).gates;
        assert RouteGate(w, g, path) && GateOn(w, g, paths);
      }
    }
  }

  lemma NoChange(w: Workspace, paths: set<string>)
    requires forall path :: path in paths ==> !InSomeCrate(w, path)
    ensures ChangedPackages(w, paths) == {}
  {
    forall path, package | path in paths && package in w.packages
      ensures !InCrate(w, package, path)
    {
      assert !InSomeCrate(w, path);
    }
  }
}
