/** How far a workflow's runner gets when nobody interferes: whole gathers, whole runs, and the way to one step.

    These are runs built up action by action. A gather ends with its steps succeeding or failing as asked; a spawned
    runner goes round by round to the result that the specification of the runner loop names; a runner whose steps
    succeed gets to any step that no cycle holds up, and what it held completed before is not touched on the way. A
    retry under way can be taken through its rows, and made to wait at one with a live child task. Conversely, no run
    whatsoever gets to a step on or behind a cycle. */
module WorkflowDrive {
  import opened WorkflowGraph
  import opened WorkflowRows
  import opened WorkflowRuns
  import opened WorkflowService

  predicate ByRunner(actions: seq<Action>) {
    forall i :: 0 <= i < |actions| ==> OfRunner(actions[i])
  }

  /** Only rows, runner, child tasks and start counts differ; no child task is new, and no count lower. */
  predicate Beside(w: World, after: World) {
    && after == w.(rows := after.rows, runner := after.runner, kids := after.kids, starts := after.starts)
    && after.rows.Keys == w.rows.Keys && after.starts.Keys == w.starts.Keys && after.kids <= w.kids
    && forall x :: x in w.starts ==> w.starts[x] <= after.starts[x]
  }

  // Steps of the gather that have not ended.
  function Open(r: Runner): set<Id>
    requires r.Going?
  {
    r.active - r.good - r.broken
  }

  function Ended(r: Runner, open: set<Id>, failing: set<Id>): Runner
    requires r.Going?
  {
    r.(begun := r.begun + open, good := r.good + (open - failing), broken := r.broken + open * failing)
  }

  // What a gather leaves: its open steps ended as `failing` says.
  predicate Gathers(w: World, open: set<Id>, failing: set<Id>, after: World)
    requires w.runner.Going?
  {
    && Beside(w, after) && after.rows == AfterRound(w.rows, open, failing)
    && after.runner == Ended(w.runner, open, failing)
  }

  // One open step ended.
  predicate OneEnded(w: World, x: Id, failing: set<Id>, after: World)
    requires w.runner.Going?
  {
    && Beside(w, after) && after.rows == w.rows[x := if x in failing then Failed else Completed]
    && after.runner == Ended(w.runner, {x}, if x in failing then {x} else {})
  }

  lemma StartOpen(p: Plan, w: World, x: Id)
    requires Shaped(p, w) && Yields(w) && w.runner.Going?
    requires x in Open(w.runner) - w.runner.begun && w.rows[x] != Completed
    ensures var next := Step(p, w, Start(x));
      Beside(w, next) && next.rows == w.rows[x := Running] && next.runner == w.runner.(begun := w.runner.begun + {x})
  {
  }

  lemma FinishBegun(p: Plan, w: World, x: Id, ok: bool, failing: set<Id>)
    requires Yields(w) && w.runner.Going? && x in w.runner.begun && x in Open(w.runner) && x in w.rows
    requires ok <==> x !in failing
    ensures OneEnded(w, x, failing, Step(p, w, Finish(x, ok)))
  {
    assert w.runner.begun + {x} == w.runner.begun;
  }

  lemma OneEndedAlso(w: World, next: World, x: Id, failing: set<Id>, after: World)
    requires w.runner.Going? && x in w.rows && Beside(w, next) && next.rows == w.rows[x := Running]
    requires next.runner == w.runner.(begun := w.runner.begun + {x}) && OneEnded(next, x, failing, after)
    ensures OneEnded(w, x, failing, after)
  {
    assert w.runner.begun + {x} + {x} == w.runner.begun + {x};
  }

  lemma FinishOne(p: Plan, w: World, x: Id, failing: set<Id>) returns (actions: seq<Action>)
    requires Shaped(p, w) && Yields(w) && w.runner.Going? && x in Open(w.runner) && w.rows[x] != Completed
    ensures ByRunner(actions)
    ensures OneEnded(w, x, failing, Run(p, w, actions))
  {
    var ok := x !in failing;
    var end := Finish(x, ok);
    if x in w.runner.begun {
      actions := [end];
      RunOne(p, w, end);
      FinishBegun(p, w, x, ok, failing);
    } else {
      var next := Step(p, w, Start(x));
      actions := [Start(x), end];
      StartOpen(p, w, x);
      FinishBegun(p, next, x, ok, failing);
      OneEndedAlso(w, next, x, failing, Step(p, next, end));
      RunCons(p, w, Start(x), [end]);
      RunOne(p, next, end);
    }
  }

  lemma GathersMore(w: World, x: Id, failing: set<Id>, next: World, open: set<Id>, after: World)
    requires w.runner.Going? && x in w.rows && x in open
    requires OneEnded(w, x, failing, next) && Gathers(next, open - {x}, failing, after)
    ensures Gathers(w, open, failing, after)
  {
    assert AfterRound(next.rows, open - {x}, failing) == AfterRound(w.rows, open, failing);
    assert {x} + (open - {x}) == open;
    assert Ended(next.runner, open - {x}, failing) == Ended(w.runner, open, failing);
  }

  lemma ByRunnerConcat(s: seq<Action>, t: seq<Action>)
    requires ByRunner(s) && ByRunner(t)
    ensures ByRunner(s + t)
  {
  }

  /** Every step of the gather ends, as `failing` says. */
  lemma {:induction false} FinishAll(p: Plan, w: World, failing: set<Id>) returns (actions: seq<Action>)
    requires Shaped(p, w) && Yields(w) && w.runner.Going?
    requires forall x :: x in Open(w.runner) ==> w.rows[x] != Completed
    ensures ByRunner(actions)
    ensures Gathers(w, Open(w.runner), failing, Run(p, w, actions))
    decreases |Open(w.runner)|, 1
  {
    actions := [];
    if Open(w.runner) == {} {
      assert AfterRound(w.rows, {}, failing) == w.rows;
    } else {
      var x :| x in Open(w.runner);
      var first := FinishOne(p, w, x, failing);
      var rest := FinishRest(p, w, x, failing, first);
      actions := first + rest;
      ByRunnerConcat(first, rest);
      RunConcat(p, w, first, rest);
      GathersMore(w, x, failing, Run(p, w, first), Open(w.runner), Run(p, Run(p, w, first), rest));
    }
  }

  lemma {:induction false} FinishRest(p: Plan, w: World, x: Id, failing: set<Id>, first: seq<Action>)
    returns (rest: seq<Action>)
    requires Shaped(p, w) && Yields(w) && w.runner.Going? && x in Open(w.runner)
    requires forall x :: x in Open(w.runner) ==> w.rows[x] != Completed
    requires OneEnded(w, x, failing, Run(p, w, first))
    ensures ByRunner(rest)
    ensures Gathers(Run(p, w, first), Open(w.runner) - {x}, failing, Run(p, Run(p, w, first), rest))
    decreases |Open(w.runner)|, 0
  {
    var next := Run(p, w, first);
    ShapedRun(p, w, first);
    OneLess(w.runner, next.runner, x, failing);
    rest := FinishAll(p, next, failing);
  }

  lemma OneLess(r: Runner, next: Runner, x: Id, failing: set<Id>)
    requires r.Going? && x in Open(r) && next == Ended(r, {x}, if x in failing then {x} else {})
    ensures Open(next) == Open(r) - {x} && |Open(next)| < |Open(r)|
  {
  }

  lemma ThenEnd(p: Plan, w: World, ended: seq<Action>, end: Action)
    requires ByRunner(ended) && OfRunner(end)
    ensures ByRunner(ended + [end])
    ensures Run(p, w, ended + [end]) == Step(p, Run(p, w, ended), end)
  {
    ByRunnerConcat(ended, [end]);
    RunConcat(p, w, ended, [end]);
    RunOne(p, Run(p, w, ended), end);
  }

  // ------------------------------------------------------------------ Whole runs

  // At the top of the loop, with nobody else at work.
  predicate AtTop(w: World) {
    && w.runner.Going? && w.runner.active == {} && w.runner.begun == {} && w.runner.good == {} && w.runner.broken == {}
    && w.runner.results == InState(w.rows, Completed) && w.runner.todo == Todo(w.rows)
  }

  lemma ChecksAgree(p: Plan, w: World)
    requires Shaped(p, w) && AtTop(w)
    ensures Bad(w.rows) <==> AnyIn(w.rows, w.runner.todo, {Failed, Interrupted})
    ensures !Bad(w.rows) ==> (Halted(w.rows) <==> AnyIn(w.rows, w.runner.todo, {Cancelled}))
    ensures ReadyOf(p, w.runner) == Ready(p.deps, w.rows)
  {
    if x :| x in w.rows && Halting(w.rows[x]) {
      assert x in w.runner.todo;
    }
    forall x | x in w.rows && (w.rows[x].Failed? || w.rows[x].Interrupted?)
      ensures AnyIn(w.rows, w.runner.todo, {Failed, Interrupted}) {
      assert x in w.runner.todo && w.rows[x] in {Failed, Interrupted};
    }
    forall x | x in w.rows && w.rows[x].Cancelled? ensures AnyIn(w.rows, w.runner.todo, {Cancelled}) {
      assert x in w.runner.todo && w.rows[x] in {Cancelled};
    }
  }

  // The top of the loop again after a gather, or the end if one of its steps failed.
  predicate Through(g: Graph, w: World, failing: set<Id>, after: World) {
    && Yields(after) && after.rows == AfterRound(w.rows, Ready(g, w.rows), failing)
    && (if Ready(g, w.rows) * failing == {} then AtTop(after) && after.state == w.state
        else after.runner.NoRunner? && after.state == FlowFailed)
  }

  lemma GatherEnds(p: Plan, w: World, next: World, failing: set<Id>, gathered: World) returns (end: Action)
    requires next.runner.Going? && Yields(w) && AtTop(w) && Ready(p.deps, w.rows) != {}
    requires next == w.(runner := w.runner.(active := Ready(p.deps, w.rows)))
    requires Ready(p.deps, w.rows) * failing == {} ==> Goes(p.deps, w.rows, failing)
    requires Gathers(next, Ready(p.deps, w.rows), failing, gathered)
    ensures OfRunner(end) && Through(p.deps, w, failing, Step(p, gathered, end))
  {
    var ready := Ready(p.deps, w.rows);
    assert gathered.runner.active == ready && gathered.runner.broken == ready * failing;
    assert GatherOver(gathered.runner);
    if ready * failing == {} {
      end := Gathered;
      assert Step(p, gathered, end) == EndGather(gathered);
      Unfold(p.deps, w.rows, failing, w.state);
    } else {
      var x :| x in ready * failing;
      end := GatherFailed(x);
      assert Step(p, gathered, end) == FailGather(gathered, x);
      assert gathered.rows[x := Failed] == gathered.rows;
    }
  }

  lemma RoundGoes(p: Plan, w: World, failing: set<Id>)
    requires Shaped(p, w) && Yields(w) && AtTop(w) && NextRound(p, w).runner.Going?
    ensures var next := NextRound(p, w); var ready := Ready(p.deps, w.rows);
      && ready != {} && Shaped(p, next) && Open(next.runner) == ready
      && next == w.(runner := w.runner.(active := ready))
      && (ready * failing == {} ==> Goes(p.deps, w.rows, failing))
  {
    RoundIsShaped(p, w);
    ChecksAgree(p, w);
  }

  lemma WholeGather(p: Plan, w: World, failing: set<Id>) returns (actions: seq<Action>)
    requires Shaped(p, w) && Yields(w) && AtTop(w) && NextRound(p, w).runner.Going?
    ensures ByRunner(actions) && Shaped(p, Run(p, NextRound(p, w), actions))
    ensures Through(p.deps, w, failing, Run(p, NextRound(p, w), actions))
  {
    var next := NextRound(p, w);
    RoundGoes(p, w, failing);
    var ended := FinishAll(p, next, failing);
    var end := GatherEnds(p, w, next, failing, Run(p, next, ended));
    ThenEnd(p, next, ended, end);
    actions := ended + [end];
    ShapedRun(p, next, actions);
  }

  predicate Arrives(e: End, after: World) {
    after.rows == e.rows && after.state == e.state && after.runner.NoRunner?
  }

  lemma {:induction false} Rounds(p: Plan, w: World, failing: set<Id>) returns (actions: seq<Action>)
    requires Shaped(p, w) && Yields(w) && AtTop(w)
    ensures ByRunner(actions)
    ensures Arrives(Outcome(p.deps, w.rows, failing, w.state), Run(p, NextRound(p, w), actions))
    decreases |Todo(w.rows)|, 1
  {
    actions := [];
    ChecksAgree(p, w);
    if NextRound(p, w).runner.Going? {
      actions := WholeGather(p, w, failing);
      if Goes(p.deps, w.rows, failing) {
        var top := Run(p, NextRound(p, w), actions);
        OutcomeGoesOn(p.deps, w, failing, top);
        var more := MoreRounds(p, top, failing);
        RunConcat(p, NextRound(p, w), actions, more);
        ByRunnerConcat(actions, more);
        actions := actions + more;
      }
    }
  }

  lemma OutcomeGoesOn(g: Graph, w: World, failing: set<Id>, top: World)
    requires Goes(g, w.rows, failing) && Through(g, w, failing, top)
    ensures var e := Outcome(g, w.rows, failing, w.state); var rest := Outcome(g, top.rows, failing, top.state);
      AtTop(top) && e.rows == rest.rows && e.state == rest.state && |Todo(top.rows)| < |Todo(w.rows)|
  {
    Unfold(g, w.rows, failing, w.state);
  }

  lemma {:induction false} MoreRounds(p: Plan, top: World, failing: set<Id>) returns (more: seq<Action>)
    requires Shaped(p, top) && Yields(top) && AtTop(top)
    ensures ByRunner(more)
    ensures Arrives(Outcome(p.deps, top.rows, failing, top.state), Run(p, top, more))
    decreases |Todo(top.rows)|, 2
  {
    var rest := Rounds(p, top, failing);
    RunCons(p, top, Round, rest);
    ByRunnerConcat([Round], rest);
    more := [Round] + rest;
  }

  /** A spawned runner that nobody interferes with ends as the specification of the runner loop says. */
  lemma RunnerReachesOutcome(p: Plan, w: World, failing: set<Id>) returns (actions: seq<Action>)
    requires Shaped(p, w) && Yields(w) && w.runner.Spawned?
    ensures ByRunner(actions)
    ensures var during := if w.runner.recovering then FlowRecovering else FlowRunning;
      Arrives(Outcome(p.deps, w.rows, failing, during), Run(p, w, actions))
  {
    var top := Enter(w);
    if exists x :: x in w.rows && w.rows[x].Interrupted? {
      var x :| x in w.rows && w.rows[x].Interrupted?;
      assert x in top.runner.todo && w.rows[x] in {Failed, Interrupted};
      assert Bad(w.rows) && x in Todo(w.rows);
      actions := [Begin];
      RunOne(p, w, Begin);
    } else {
      assert top.runner.todo == Todo(w.rows);
      var rest := Rounds(p, top, failing);
      actions := [Begin] + rest;
      ByRunnerConcat([Begin], rest);
      RunCons(p, w, Begin, rest);
    }
  }

  // ------------------------------------------------------------------ The way to one step

  // The runner can get on as long as its steps succeed.
  predicate Clear(w: World) {
    && Yields(w) && w.runner.Going? && w.runner.broken == {}
    && (forall x :: x in w.runner.todo - w.runner.active && x in w.rows ==> !Halting(w.rows[x]))
    && (forall x :: x in w.runner.todo - w.runner.good && x in w.rows ==> w.rows[x] != Completed)
  }

  /** Steps were completed, others than `y`; what the runner held completed before was not touched. */
  predicate Onward(w: World, after: World, y: Id)
    requires w.runner.Going?
  {
    && Beside(w, after) && after.runner.Going? && w.runner.results <= after.runner.results
    && w.runner.results + w.runner.good <= after.runner.results + after.runner.good
    && (y !in w.runner.active ==> w.runner.active <= after.runner.results)
    && (forall x :: x in w.rows ==> after.rows[x] == w.rows[x] || after.rows[x] == Completed)
    && (forall x :: x in w.rows && (x == y || x in w.runner.results + w.runner.good) ==> after.rows[x] == w.rows[x])
    && (forall x :: x in after.runner.results + after.runner.good && x in w.rows ==>
          x in w.runner.results + w.runner.good || after.rows[x] == Completed)
  }

  lemma ClearedAfter(w: World, gathered: World, y: Id)
    requires Clear(w) && w.rows.Keys == w.runner.results + w.runner.todo
    requires w.runner.active <= w.runner.todo && w.runner.good <= w.runner.active
    requires w.runner.results !! w.runner.todo
    requires Gathers(w, Open(w.runner), {}, gathered) && y in w.runner.todo - w.runner.active
    ensures Clear(EndGather(gathered)) && Onward(w, EndGather(gathered), y)
  {
  }

  lemma GatherCleared(p: Plan, w: World, y: Id) returns (actions: seq<Action>)
    requires Shaped(p, w) && Clear(w) && w.runner.active != {} && y in w.runner.todo - w.runner.active
    ensures ByRunner(actions)
    ensures var after := Run(p, w, actions);
      && Clear(after) && Onward(w, after, y) && after.runner.active == {} && y in after.runner.todo
      && after.runner.todo < w.runner.todo
  {
    var ended := FinishAll(p, w, {});
    var gathered := Run(p, w, ended);
    ThenEnd(p, w, ended, Gathered);
    ClearedAfter(w, gathered, y);
    assert GatherOver(gathered.runner) && gathered.runner.broken == {};
    assert Step(p, gathered, Gathered) == EndGather(gathered);
    actions := ended + [Gathered];
  }

  lemma SomethingReady(p: Plan, w: World, y: Id)
    requires Shaped(p, w) && w.runner.Going? && y in w.runner.todo && !Doomed(p.deps, y)
    ensures ReadyOf(p, w.runner) != {}
  {
    if ReadyOf(p, w.runner) == {} {
      forall x | x in w.runner.todo ensures WaitsFor(p.deps, x, w.runner.todo) {
        assert x !in ReadyOf(p, w.runner);
        var d :| d in p.deps[x] && d !in w.runner.results;
      }
      WaitingIsDoomed(p.deps, w.runner.todo, y);
    }
  }

  lemma OnwardAgain(w: World, next: World, after: World, y: Id)
    requires w.runner.Going? && Onward(w, next, y) && Onward(next, after, y)
    ensures Onward(w, after, y)
  {
  }

  // On the way, the step is about to be started.
  predicate Arrived(p: Plan, w: World, after: World, y: Id)
    requires w.runner.Going?
  {
    && Shaped(p, after) && Onward(w, after, y) && y in Open(after.runner) && y !in after.runner.begun
    && after.runner.broken == {}
  }

  /** If its steps succeed, the runner gets to every step that no cycle holds up. */
  lemma {:induction false} Drive(p: Plan, w: World, y: Id) returns (actions: seq<Action>)
    requires Shaped(p, w) && Clear(w) && y in w.runner.todo - w.runner.active && !Doomed(p.deps, y)
    ensures ByRunner(actions)
    ensures Arrived(p, w, Run(p, w, actions), y)
    decreases |w.runner.todo|, if w.runner.active == {} then 1 else 0
  {
    actions := Advance(p, w, y);
    var next := Run(p, w, actions);
    if y !in next.runner.active {
      var rest := Drive(p, next, y);
      RunConcat(p, w, actions, rest);
      ByRunnerConcat(actions, rest);
      OnwardAgain(w, next, Run(p, next, rest), y);
      actions := actions + rest;
    }
  }

  lemma RoundCleared(p: Plan, w: World, y: Id)
    requires Shaped(p, w) && Clear(w) && w.runner.active == {} && y in w.runner.todo && !Doomed(p.deps, y)
    ensures Step(p, w, Round) == w.(runner := w.runner.(active := ReadyOf(p, w.runner)))
    ensures ReadyOf(p, w.runner) != {}
  {
    SomethingReady(p, w, y);
    assert !AnyIn(w.rows, w.runner.todo, {Failed, Interrupted}) && !AnyIn(w.rows, w.runner.todo, {Cancelled});
  }

  lemma Advance(p: Plan, w: World, y: Id) returns (actions: seq<Action>)
    requires Shaped(p, w) && Clear(w) && y in w.runner.todo - w.runner.active && !Doomed(p.deps, y)
    ensures ByRunner(actions) && Shaped(p, Run(p, w, actions))
    ensures var next := Run(p, w, actions);
      && Onward(w, next, y)
      && if y in next.runner.active then
           y in Open(next.runner) && y !in next.runner.begun && next.runner.broken == {}
         else
           && Clear(next) && y in next.runner.todo && |next.runner.todo| <= |w.runner.todo|
           && (|next.runner.todo| < |w.runner.todo| || (w.runner.active == {} && next.runner.active != {}))
  {
    if w.runner.active != {} {
      actions := GatherCleared(p, w, y);
      Smaller(Run(p, w, actions).runner.todo, w.runner.todo);
    } else {
      RoundCleared(p, w, y);
      RunOne(p, w, Round);
      actions := [Round];
    }
    ShapedRun(p, w, actions);
  }

  lemma Smaller(a: set<Id>, b: set<Id>)
    requires a < b
    ensures |a| < |b|
  {
    var x :| x in b && x !in a;
    SubsetSize(a, b - {x});
  }

  lemma BeginGoes(p: Plan, w: World, y: Id)
    requires Shaped(p, w) && Yields(w) && w.runner.Spawned?
    requires y in w.rows && !Completes(w.rows, y) && !Doomed(p.deps, y)
    requires forall h :: h in w.rows ==> !Halting(w.rows[h])
    ensures ReadyOf(p, Enter(w).runner) != {} && y in Enter(w).runner.todo
    ensures Step(p, w, Begin) == Enter(w).(runner := Enter(w).runner.(active := ReadyOf(p, Enter(w).runner)))
  {
    var top := Enter(w);
    assert !AnyIn(w.rows, top.runner.todo, {Failed, Interrupted}) && !AnyIn(w.rows, top.runner.todo, {Cancelled});
    SomethingReady(p, top, y);
  }

  // ------------------------------------------------------------------ A retry under way

  // What the runner does, and what a retry or a cancellation under way does to single rows.
  predicate Quiet(actions: seq<Action>) {
    forall i :: 0 <= i < |actions| ==>
      OfRunner(actions[i]) || actions[i].ResetRow? || actions[i].Park? || actions[i].Sweeping?
  }

  lemma {:induction false} ResetsAreQuiet(order: seq<Id>, live: set<Id>)
    ensures Quiet(Resets(order, live))
    decreases |order|
  {
    if order != [] {
      ResetsAreQuiet(order[1..], live);
    }
  }

  // The retry resets these rows without giving way, but where it must.
  lemma ResetThese(p: Plan, w: World, some: set<Id>) returns (actions: seq<Action>)
    requires Shaped(p, w) && w.up && Busy(w) && some <= w.retry.left
    ensures Quiet(actions)
    ensures Run(p, w, actions) == ResetSome(w, some)
  {
    var order := Listing(some);
    var live := Live(w.retry, w.kids);
    actions := Resets(order, live);
    ResetsSome(p, w, order, some, live);
    ResetsAreQuiet(order, live);
  }

  function WaitingRow(s: Sweep): set<Id> {
    if PauseOf(s).At? then {PauseOf(s).x} else {}
  }

  // The child task it waits for has been cancelled.
  lemma GoOn(p: Plan, w: World) returns (actions: seq<Action>)
    requires Shaped(p, w) && w.up && w.retry.Over?
    ensures Quiet(actions)
    ensures Run(p, w, actions) == ResetSome(w, WaitingRow(w.retry)) && Busy(Run(p, w, actions))
  {
    actions := [];
    if w.retry.pause.At? {
      actions := [ResetRow(w.retry.pause.x)];
      RunOne(p, w, actions[0]);
      assert ResetRows(w.rows, {w.retry.pause.x}) == w.rows[w.retry.pause.x := Pending];
    } else {
      assert ResetRows(w.rows, {}) == w.rows;
      assert w.kids - {} == w.kids && w.retry.left - {} == w.retry.left && w.retry.may - {} == w.retry.may;
    }
  }

  lemma ResetsTwice(w: World, some: set<Id>, more: set<Id>)
    requires w.retry.Over?
    ensures ResetSome(ResetSome(w, some), more) == ResetSome(w, some + more)
  {
    assert ResetRows(ResetRows(w.rows, some), more) == ResetRows(w.rows, some + more);
    assert w.kids - some - more == w.kids - (some + more);
    assert w.retry.left - some - more == w.retry.left - (some + more);
    assert w.retry.may - some - more == w.retry.may - (some + more);
  }

  // From wherever it is, the retry resets these rows and the one it waits at.
  lemma GoOnThrough(p: Plan, w: World, some: set<Id>) returns (actions: seq<Action>)
    requires Shaped(p, w) && w.up && w.retry.Over? && some <= w.retry.left
    ensures Quiet(actions)
    ensures Run(p, w, actions) == ResetSome(w, WaitingRow(w.retry) + some)
  {
    var first := GoOn(p, w);
    var next := Run(p, w, first);
    ShapedRun(p, w, first);
    var rest := ResetThese(p, next, some - WaitingRow(w.retry));
    RunConcat(p, w, first, rest);
    ResetsTwice(w, WaitingRow(w.retry), some - WaitingRow(w.retry));
    assert WaitingRow(w.retry) + (some - WaitingRow(w.retry)) == WaitingRow(w.retry) + some;
    actions := first + rest;
  }

  lemma ParkAt(p: Plan, w: World, j: Id)
    requires w.up && Busy(w) && j in Live(w.retry, w.kids)
    ensures Quiet([Park(j)]) && Run(p, w, [Park(j)]) == w.(retry := w.retry.(pause := At(j)))
  {
    RunOne(p, w, Park(j));
  }

  // The retry resets these rows first and then waits at another.
  lemma ParkBehind(p: Plan, w: World, some: set<Id>, j: Id) returns (actions: seq<Action>)
    requires Shaped(p, w) && w.up && w.retry.Over? && some <= w.retry.left
    requires j in Live(w.retry, w.kids) && j !in some && PauseOf(w.retry) != At(j)
    ensures Quiet(actions)
    ensures var after := Run(p, w, actions); var reset := WaitingRow(w.retry) + some;
      && Shaped(p, after) && Yields(after)
      && after == ResetSome(w, reset).(retry := ResetSome(w, reset).retry.(pause := At(j)))
  {
    var first := GoOnThrough(p, w, some);
    var next := Run(p, w, first);
    ParkAt(p, next, j);
    RunConcat(p, w, first, [Park(j)]);
    actions := first + [Park(j)];
    ShapedRun(p, w, actions);
  }

  // ------------------------------------------------------------------ Where no runner gets

  /** In every run whatsoever, a step on or behind a dependency cycle is never started and never completed. */
  lemma DoomedNeverStarts(p: Plan, actions: seq<Action>, x: Id)
    requires Doomed(p.deps, x)
    ensures var w := Run(p, Init(p), actions);
      (x in w.rows ==> w.rows[x] != Completed) && (x in w.starts ==> w.starts[x] == 0)
  {
    NoneDoomedRun(p, Init(p), actions);
  }

  /** In every run, a runner that finds no ready step is left with exactly the steps on or behind a cycle. */
  lemma StopsExactlyAtCycles(p: Plan, actions: seq<Action>)
    requires Known(p.deps)
    ensures var w := Run(p, Init(p), actions);
      w.runner.Going? && w.runner.active == {} && ReadyOf(p, w.runner) == {} ==>
        forall x :: x in p.deps ==> (x in w.runner.todo <==> Doomed(p.deps, x))
  {
    var w := Run(p, Init(p), actions);
    ShapedRun(p, Init(p), actions);
    NoneDoomedRun(p, Init(p), actions);
    if w.runner.Going? && w.runner.active == {} && ReadyOf(p, w.runner) == {} {
      forall x | x in p.deps && x !in w.runner.results ensures !(p.deps[x] <= w.runner.results) {
        assert x in w.runner.todo && x !in ReadyOf(p, w.runner);
      }
      StuckIsDoomed(p.deps, w.runner.results);
    }
  }
}
