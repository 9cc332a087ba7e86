/** Workflow plans as dependency graphs (workbot/orchestration/models.py, the validation in workbot/agents/manager.py),
    and the downstream closure a retry resets (workbot/main.py). */
module WorkflowGraph {

  type Id = string

  datatype Executor = Windows | Remote

  datatype PlanStep = PlanStep(id: Id, executor: Executor, deps: seq<Id>)

  type Graph = map<Id, set<Id>>

  predicate Known(g: Graph) {
    forall x :: x in g ==> g[x] <= g.Keys
  }

  function SetOf(s: seq<Id>): set<Id> {
    set x | x in s
  }

  function GraphOf(steps: seq<PlanStep>): Graph {
    if steps == [] then map[]
    else
      var last := steps[|steps| - 1];
      GraphOf(steps[..|steps| - 1])[last.id := SetOf(last.deps)]
  }

  predicate Unique(steps: seq<PlanStep>) {
    forall i, j :: 0 <= i < j < |steps| ==> steps[i].id != steps[j].id
  }

  /** What plan validation accepts: at least one step, unique ids, known dependencies, none on itself. Longer cycles
      pass. */
  predicate Accepted(steps: seq<PlanStep>) {
    && steps != [] && Unique(steps) && Known(GraphOf(steps))
    && forall s :: s in steps ==> s.id !in s.deps
  }

  lemma {:induction false} GraphOfStep(steps: seq<PlanStep>, i: nat)
    requires Unique(steps) && i < |steps|
    ensures steps[i].id in GraphOf(steps) && GraphOf(steps)[steps[i].id] == SetOf(steps[i].deps)
    decreases |steps|
  {
    var n := |steps| - 1;
    if i < n {
      GraphOfStep(steps[..n], i);
      assert steps[..n][i] == steps[i];
      assert steps[i].id != steps[n].id;
    }
  }

  lemma {:induction false} StepOfGraph(steps: seq<PlanStep>, x: Id) returns (i: nat)
    requires x in GraphOf(steps)
    ensures i < |steps| && steps[i].id == x
    decreases |steps|
  {
    var n := |steps| - 1;
    if steps[n].id == x {
      i := n;
    } else {
      i := StepOfGraph(steps[..n], x);
    }
  }

  // ------------------------------------------------------------------ Chains of dependencies

  predicate Link(g: Graph, path: seq<Id>, i: nat)
    requires i + 1 < |path|
  {
    path[i] in g && path[i + 1] in g[path[i]]
  }

  predicate Chain(g: Graph, path: seq<Id>) {
    && path != [] && path[|path| - 1] in g
    && forall i :: 0 <= i < |path| - 1 ==> Link(g, path, i)
  }

  lemma ChainCons(g: Graph, a: Id, rest: seq<Id>)
    requires Chain(g, rest) && a in g && rest[0] in g[a]
    ensures Chain(g, [a] + rest)
  {
    var path := [a] + rest;
    forall i | 0 <= i < |path| - 1 ensures Link(g, path, i) {
      if i > 0 {
        assert Link(g, rest, i - 1);
      }
    }
  }

  lemma ChainPart(g: Graph, path: seq<Id>, i: nat, j: nat)
    requires Chain(g, path) && i < j <= |path|
    ensures Chain(g, path[i..j])
  {
    assert j < |path| ==> Link(g, path, j - 1);
    forall k | 0 <= k < j - i - 1 ensures Link(g, path[i..j], k) {
      assert Link(g, path, i + k);
    }
  }

  predicate Joins(g: Graph, path: seq<Id>, a: Id, b: Id) {
    Chain(g, path) && path[0] == a && path[|path| - 1] == b
  }

  lemma ChainTail(g: Graph, path: seq<Id>, a: Id, b: Id)
    requires Joins(g, path, a, b) && |path| > 1
    ensures a in g && path[1] in g[a] && Joins(g, path[1..], path[1], b)
  {
    assert Link(g, path, 0);
    ChainPart(g, path, 1, |path|);
    assert path[1..] == path[1..|path|];
  }

  /** `a` depends on `b` through any number of dependencies, none included. */
  ghost predicate Reaches(g: Graph, a: Id, b: Id) {
    exists path :: Joins(g, path, a, b)
  }

  ghost predicate OnCycle(g: Graph, a: Id) {
    exists path :: Joins(g, path, a, a) && |path| >= 2
  }

  ghost predicate Acyclic(g: Graph) {
    forall a :: a in g ==> !OnCycle(g, a)
  }

  /** `a` lies on a cycle or depends on one. */
  ghost predicate Doomed(g: Graph, a: Id) {
    exists c :: Reaches(g, a, c) && OnCycle(g, c)
  }

  lemma ReachesSelf(g: Graph, a: Id)
    requires a in g
    ensures Reaches(g, a, a)
  {
    assert Joins(g, [a], a, a);
  }

  lemma ReachesVia(g: Graph, a: Id, d: Id, b: Id)
    requires a in g && d in g[a] && Reaches(g, d, b)
    ensures Reaches(g, a, b)
  {
    var path :| Joins(g, path, d, b);
    ChainCons(g, a, path);
    assert Joins(g, [a] + path, a, b);
  }

  lemma DoomedVia(g: Graph, a: Id, d: Id)
    requires a in g && d in g[a] && Doomed(g, d)
    ensures Doomed(g, a)
  {
    var c :| Reaches(g, d, c) && OnCycle(g, c);
    ReachesVia(g, a, d, c);
  }

  /** A doomed step has a doomed dependency: what a step with sound dependencies cannot be. */
  lemma DoomedDependency(g: Graph, a: Id) returns (d: Id)
    requires Doomed(g, a)
    ensures a in g && d in g[a] && Doomed(g, d)
  {
    var c :| Reaches(g, a, c) && OnCycle(g, c);
    var path :| Joins(g, path, a, c);
    if |path| == 1 {
      var cycle :| Joins(g, cycle, a, a) && |cycle| >= 2;
      d := cycle[1];
      ChainTail(g, cycle, a, a);
    } else {
      d := path[1];
      ChainTail(g, path, a, c);
    }
  }

  lemma AcyclicMeansNoneDoomed(g: Graph)
    ensures Acyclic(g) <==> forall a :: a in g ==> !Doomed(g, a)
  {
    forall a | a in g && OnCycle(g, a) ensures Doomed(g, a) {
      ReachesSelf(g, a);
    }
    forall a | a in g && Doomed(g, a) ensures !Acyclic(g) {
      var c :| Reaches(g, a, c) && OnCycle(g, c);
      var path :| Joins(g, path, a, c);
    }
  }

  // ------------------------------------------------------------------ A set that waits on itself

  lemma {:induction false} Repeats(s: seq<Id>, within: set<Id>) returns (i: nat, j: nat)
    requires |s| > |within| && forall k :: 0 <= k < |s| ==> s[k] in within
    ensures i < j < |s| && s[i] == s[j]
    decreases |s|
  {
    var n := |s| - 1;
    if k :| 0 <= k < n && s[k] == s[n] {
      i, j := k, n;
    } else {
      i, j := Repeats(s[..n], within - {s[n]});
    }
  }

  predicate WaitsFor(g: Graph, x: Id, stuck: set<Id>) {
    x in g && exists d :: d in g[x] && d in stuck
  }

  ghost predicate Waiting(g: Graph, stuck: set<Id>) {
    forall x {:trigger WaitsFor(g, x, stuck)} :: x in stuck ==> WaitsFor(g, x, stuck)
  }

  lemma {:induction false} LongWalk(g: Graph, stuck: set<Id>, a: Id, n: nat) returns (walk: seq<Id>)
    requires Waiting(g, stuck) && a in stuck
    ensures |walk| == n + 1 && walk[0] == a && Chain(g, walk)
    ensures forall k :: 0 <= k < |walk| ==> walk[k] in stuck
    decreases n
  {
    walk := [a];
    assert WaitsFor(g, a, stuck);
    if n > 0 {
      var d :| d in g[a] && d in stuck;
      var rest := LongWalk(g, stuck, d, n - 1);
      ChainCons(g, a, rest);
      walk := [a] + rest;
    }
  }

  /** When every step of a set waits on another of the set, each of them lies on or depends on a cycle. */
  lemma WaitingIsDoomed(g: Graph, stuck: set<Id>, a: Id)
    requires Waiting(g, stuck) && a in stuck
    ensures Doomed(g, a)
  {
    var walk := LongWalk(g, stuck, a, |stuck|);
    var i, j := Repeats(walk, stuck);
    var c := walk[i];
    ChainPart(g, walk, 0, i + 1);
    ChainPart(g, walk, i, j + 1);
    assert walk[..i + 1] == walk[0..i + 1];
    assert Joins(g, walk[..i + 1], a, c);
    assert Joins(g, walk[i..j + 1], c, c);
    assert Reaches(g, a, c) && OnCycle(g, c);
  }

  /** The steps left when no step is ready are exactly the doomed ones, if none of the finished ones is doomed. */
  lemma StuckIsDoomed(g: Graph, finished: set<Id>)
    requires Known(g)
    requires forall x :: x in finished ==> !Doomed(g, x)
    requires forall x :: x in g && x !in finished ==> !(g[x] <= finished)
    ensures forall x :: x in g ==> (Doomed(g, x) <==> x !in finished)
  {
    var stuck := g.Keys - finished;
    forall x | x in stuck ensures WaitsFor(g, x, stuck) {
      var d :| d in g[x] && d !in finished;
    }
    forall x | x in stuck ensures Doomed(g, x) {
      WaitingIsDoomed(g, stuck, x);
    }
  }

  lemma FinishedStaysSound(g: Graph, finished: set<Id>, x: Id)
    requires x in g && g[x] <= finished && forall y :: y in finished ==> !Doomed(g, y)
    ensures !Doomed(g, x)
  {
    if Doomed(g, x) {
      var d := DoomedDependency(g, x);
    }
  }

  // ------------------------------------------------------------------ What a retry resets

  /** The steps whose result may depend on that of `target`, and `target` itself. */
  ghost predicate IsDownstream(g: Graph, target: Id, reset: set<Id>) {
    forall x :: x in reset <==> x in g && Reaches(g, x, target)
  }

  lemma {:induction false} ClosedContains(g: Graph, target: Id, reset: set<Id>, path: seq<Id>, x: Id)
    requires target in reset && Joins(g, path, x, target)
    requires forall y, d :: y in g && d in g[y] && d in reset ==> y in reset
    ensures x in reset
    decreases |path|
  {
    if |path| > 1 {
      ChainTail(g, path, x, target);
      ClosedContains(g, target, reset, path[1..], path[1]);
    }
  }

  ghost predicate AllReach(g: Graph, reset: set<Id>, target: Id) {
    reset <= g.Keys && forall x :: x in reset ==> Reaches(g, x, target)
  }

  predicate Blocks(s: PlanStep, reset: set<Id>) {
    s.id !in reset && exists d :: d in s.deps && d in reset
  }

  lemma FullyClosed(steps: seq<PlanStep>, target: Id, reset: set<Id>)
    requires Unique(steps) && Known(GraphOf(steps))
    requires target in reset && AllReach(GraphOf(steps), reset, target)
    requires forall j :: 0 <= j < |steps| ==> !Blocks(steps[j], reset)
    ensures IsDownstream(GraphOf(steps), target, reset)
  {
    var g := GraphOf(steps);
    forall y, d | y in g && d in g[y] && d in reset ensures y in reset {
      var i := StepOfGraph(steps, y);
      GraphOfStep(steps, i);
    }
    forall x | x in g && Reaches(g, x, target) ensures x in reset {
      var path :| Joins(g, path, x, target);
      ClosedContains(g, target, reset, path, x);
    }
  }

  lemma BlockedReaches(steps: seq<PlanStep>, target: Id, reset: set<Id>, i: nat)
    requires Unique(steps) && i < |steps|
    requires AllReach(GraphOf(steps), reset, target) && Blocks(steps[i], reset)
    ensures AllReach(GraphOf(steps), reset + {steps[i].id}, target)
  {
    var d :| d in steps[i].deps && d in reset;
    GraphOfStep(steps, i);
    ReachesVia(GraphOf(steps), steps[i].id, d, target);
  }

  /** The fixpoint loop over all rows: it ends, and the set it finds is exactly the steps from which `target` is
      reachable through dependencies. */
  method Downstream(steps: seq<PlanStep>, target: Id) returns (reset: set<Id>)
    requires Unique(steps) && Known(GraphOf(steps)) && target in GraphOf(steps)
    ensures IsDownstream(GraphOf(steps), target, reset)
  {
    ghost var g := GraphOf(steps);
    reset := {target};
    ReachesSelf(g, target);
    var changed := true;
    while changed
      invariant target in reset && AllReach(g, reset, target)
      invariant !changed ==> forall j :: 0 <= j < |steps| ==> !Blocks(steps[j], reset)
      decreases |g.Keys - reset|, changed
    {
      changed := false;
      ghost var before := reset;
      for i := 0 to |steps|
        invariant before <= reset && AllReach(g, reset, target)
        invariant changed <==> before != reset
        invariant !changed ==> forall j :: 0 <= j < i ==> !Blocks(steps[j], reset)
      {
        if Blocks(steps[i], reset) {
          BlockedReaches(steps, target, reset, i);
          reset := reset + {steps[i].id};
          changed := true;
        }
      }
      if changed {
        FewerLeft(g.Keys, before, reset);
      }
    }
    FullyClosed(steps, target, reset);
  }

  lemma FewerLeft(all: set<Id>, before: set<Id>, after: set<Id>)
    requires before < after <= all
    ensures |all - after| < |all - before|
  {
    var x :| x in after && x !in before;
    assert all - after <= (all - before) - {x};
    SubsetSize(all - after, (all - before) - {x});
  }

  lemma SubsetSize(a: set<Id>, b: set<Id>)
    requires a <= b
    ensures |a| <= |b|
  {
    assert b == a + (b - a);
  }

  lemma DownstreamClosed(g: Graph, target: Id, reset: set<Id>, y: Id, d: Id)
    requires IsDownstream(g, target, reset) && y in g && d in g[y] && d in reset
    ensures y in reset
  {
    ReachesVia(g, y, d, target);
  }
}
