/** The workflow operations of main.py over the stored rows of one workflow: run, recover, cancel, resume, retry. */
module WorkflowService {
  import opened WorkflowGraph
  import opened WorkflowRows

  // ------------------------------------------------------------------ What the runner does, round by round

  // Final rows, the sets of steps started together, and the stored state (None: left as it was).
  datatype End = End(rows: Rows, rounds: seq<set<Id>>, state: FlowState)

  function Todo(rows: Rows): (todo: set<Id>)
    ensures todo <= rows.Keys
  {
    set x | x in rows && rows[x] != Completed
  }

  predicate Bad(rows: Rows) {
    exists x :: x in rows && (rows[x].Failed? || rows[x].Interrupted?)
  }

  predicate Halted(rows: Rows) {
    exists x :: x in rows && Halting(rows[x])
  }

  function Ready(g: Graph, rows: Rows): (ready: set<Id>)
    ensures ready <= Todo(rows)
  {
    set x | x in Todo(rows) && x in g && g[x] <= InState(rows, Completed)
  }

  // A gather: every ready step runs; those that fail are marked.
  function AfterRound(rows: Rows, ready: set<Id>, failing: set<Id>): Rows {
    Update(Update(rows, ready, Completed), ready * failing, Failed)
  }

  lemma FewerTodo(g: Graph, rows: Rows, failing: set<Id>)
    requires Ready(g, rows) != {} && Ready(g, rows) * failing == {}
    ensures |Todo(AfterRound(rows, Ready(g, rows), failing))| < |Todo(rows)|
  {
    var after := Todo(AfterRound(rows, Ready(g, rows), failing));
    var x :| x in Ready(g, rows);
    SubsetSize(after, Todo(rows) - {x});
  }

  function Outcome(g: Graph, rows: Rows, failing: set<Id>, during: FlowState): End
    decreases |Todo(rows)|
  {
    if Todo(rows) == {} then End(rows, [], FlowCompleted)
    else if Bad(rows) then End(rows, [], FlowFailed)
    else if Halted(rows) then End(rows, [], during)
    else
      var ready := Ready(g, rows);
      if ready == {} then End(rows, [], FlowFailed)
      else
        var after := AfterRound(rows, ready, failing);
        if ready * failing != {} then End(after, [ready], FlowFailed)
        else
          FewerTodo(g, rows, failing);
          var e := Outcome(g, after, failing, during);
          End(e.rows, [ready] + e.rounds, e.state)
  }

  // ------------------------------------------------------------------ What every run keeps

  /** Steps start at most once, and only after all their dependencies are done. */
  predicate InOrder(g: Graph, done: set<Id>, rounds: seq<set<Id>>)
    decreases |rounds|
  {
    rounds == [] ||
    (&& rounds[0] !! done && rounds[0] <= g.Keys
     && (forall x :: x in rounds[0] ==> g[x] <= done)
     && InOrder(g, done + rounds[0], rounds[1..]))
  }

  function Started(rounds: seq<set<Id>>): set<Id> {
    if rounds == [] then {} else rounds[0] + Started(rounds[1..])
  }

  lemma RoundKeeps(g: Graph, rows: Rows, failing: set<Id>)
    requires rows.Keys == g.Keys && Sound(g, rows)
    ensures Sound(g, AfterRound(rows, Ready(g, rows), failing))
    ensures Founded(g, rows) ==> Founded(g, AfterRound(rows, Ready(g, rows), failing))
  {
    var ready := Ready(g, rows);
    var after := AfterRound(rows, ready, failing);
    forall x | x in ready ensures !Doomed(g, x) {
      FinishedStaysSound(g, InState(rows, Completed), x);
    }
    if Founded(g, rows) {
      forall x | x in after && after[x] == Completed ensures HasDeps(g, after, x) {
        assert x !in ready ==> HasDeps(g, rows, x);
      }
    }
  }

  /** Completed steps keep completed dependencies and never lie on or behind a cycle. */
  lemma {:induction false} RunKeeps(g: Graph, rows: Rows, failing: set<Id>, during: FlowState)
    requires rows.Keys == g.Keys && Sound(g, rows)
    ensures var e := Outcome(g, rows, failing, during);
      e.rows.Keys == g.Keys && Sound(g, e.rows) && (Founded(g, rows) ==> Founded(g, e.rows))
    decreases |Todo(rows)|
  {
    RoundKeeps(g, rows, failing);
    if Goes(g, rows, failing) {
      Unfold(g, rows, failing, during);
      RunKeeps(g, AfterRound(rows, Ready(g, rows), failing), failing, during);
    } else {
      Ends(g, rows, failing, during);
    }
  }

  /** The run goes on after the first round. */
  predicate Goes(g: Graph, rows: Rows, failing: set<Id>) {
    && Todo(rows) != {} && !Bad(rows) && !Halted(rows)
    && Ready(g, rows) != {} && Ready(g, rows) * failing == {}
  }

  lemma Unfold(g: Graph, rows: Rows, failing: set<Id>, during: FlowState)
    requires Goes(g, rows, failing)
    ensures var ready := Ready(g, rows); var after := AfterRound(rows, ready, failing);
      var e := Outcome(g, rows, failing, during); var rest := Outcome(g, after, failing, during);
      && |Todo(after)| < |Todo(rows)| && e.rows == rest.rows && e.state == rest.state
      && e.rounds == [ready] + rest.rounds && e.rounds[1..] == rest.rounds
      && Started(e.rounds) == ready + Started(rest.rounds)
      && InState(after, Completed) == InState(rows, Completed) + ready && Todo(after) == Todo(rows) - ready
  {
    FewerTodo(g, rows, failing);
    var rest := Outcome(g, AfterRound(rows, Ready(g, rows), failing), failing, during);
    assert ([Ready(g, rows)] + rest.rounds)[1..] == rest.rounds;
  }

  lemma Ends(g: Graph, rows: Rows, failing: set<Id>, during: FlowState)
    requires !Goes(g, rows, failing)
    ensures var e := Outcome(g, rows, failing, during); var ready := Ready(g, rows);
      if Todo(rows) == {} || Bad(rows) || Halted(rows) || ready == {} then
        e.rounds == [] && Started(e.rounds) == {} && e.rows == rows
      else
        && e.rounds == [ready] && e.rounds[1..] == [] && Started(e.rounds) == ready
        && e.state == FlowFailed && e.rows == AfterRound(rows, ready, failing)
  {}

  lemma AfterTwo(rows: Rows, ready: set<Id>, more: set<Id>, failing: set<Id>)
    requires ready * failing == {}
    ensures AfterRound(AfterRound(rows, ready, failing), more, failing) == AfterRound(rows, ready + more, failing)
  {
  }

  /** Each started step starts once, after its dependencies, and was not complete before. */
  lemma {:induction false} RunStartsInOrder(g: Graph, rows: Rows, failing: set<Id>, during: FlowState)
    ensures var e := Outcome(g, rows, failing, during);
      InOrder(g, InState(rows, Completed), e.rounds) && Started(e.rounds) <= Todo(rows)
    decreases |Todo(rows)|
  {
    if Goes(g, rows, failing) {
      Unfold(g, rows, failing, during);
      RunStartsInOrder(g, AfterRound(rows, Ready(g, rows), failing), failing, during);
    } else {
      Ends(g, rows, failing, during);
    }
  }

  /** A started step ends completed, or failed if its work fails; no other row changes. */
  lemma {:induction false} RunWrites(g: Graph, rows: Rows, failing: set<Id>, during: FlowState)
    ensures var e := Outcome(g, rows, failing, during);
      e.rows == AfterRound(rows, Started(e.rounds), failing)
    ensures var e := Outcome(g, rows, failing, during);
      Started(e.rounds) * failing != {} ==> e.state == FlowFailed
    decreases |Todo(rows)|
  {
    if Goes(g, rows, failing) {
      Unfold(g, rows, failing, during);
      var after := AfterRound(rows, Ready(g, rows), failing);
      RunWrites(g, after, failing, during);
      AfterTwo(rows, Ready(g, rows), Started(Outcome(g, after, failing, during).rounds), failing);
    } else {
      Ends(g, rows, failing, during);
    }
  }

  /** On a table no operator has to look at, a run without a failing step completes exactly the steps that neither lie
      on nor depend on a cycle, and starts none of the others. */
  lemma {:induction false} CompletesAllButDoomed(g: Graph, rows: Rows, failing: set<Id>, during: FlowState)
    requires Known(g) && rows.Keys == g.Keys && Sound(g, rows) && !Halted(rows)
    ensures var e := Outcome(g, rows, failing, during);
      Started(e.rounds) * failing == {} ==>
        && (forall x :: x in g ==> (x in InState(e.rows, Completed) <==> !Doomed(g, x)))
        && e.state == if Acyclic(g) then FlowCompleted else FlowFailed
    decreases |Todo(rows)|
  {
    if Goes(g, rows, failing) {
      Unfold(g, rows, failing, during);
      RoundKeeps(g, rows, failing);
      StillNotHalted(rows, Ready(g, rows), failing);
      CompletesAllButDoomed(g, AfterRound(rows, Ready(g, rows), failing), failing, during);
    } else {
      Ends(g, rows, failing, during);
      if Todo(rows) == {} || Ready(g, rows) == {} {
        NothingReady(g, rows);
      }
    }
  }

  lemma StillNotHalted(rows: Rows, ready: set<Id>, failing: set<Id>)
    requires !Halted(rows) && ready * failing == {}
    ensures !Halted(AfterRound(rows, ready, failing))
  {
    var after := AfterRound(rows, ready, failing);
    assert forall x :: x in after ==> after[x] == rows[x] || after[x] == Completed;
  }

  lemma NothingReady(g: Graph, rows: Rows)
    requires Known(g) && rows.Keys == g.Keys && Sound(g, rows) && Ready(g, rows) == {}
    ensures forall x :: x in g ==> (x in InState(rows, Completed) <==> !Doomed(g, x))
    ensures Acyclic(g) <==> Todo(rows) == {}
  {
    AcyclicMeansNoneDoomed(g);
    forall x | x in g && x !in InState(rows, Completed) ensures !(g[x] <= InState(rows, Completed)) {
      assert x in Todo(rows) && x !in Ready(g, rows);
    }
    StuckIsDoomed(g, InState(rows, Completed));
    assert forall x :: x in g ==> (x in Todo(rows) <==> x !in InState(rows, Completed));
  }

  /** On a table that an operator has to look at nothing is started: with a failed or interrupted row the workflow
      fails, with none but cancelled ones its state is left as it was. */
  lemma HaltedStartsNothing(g: Graph, rows: Rows, failing: set<Id>, during: FlowState)
    requires exists x :: x in rows && (rows[x] == Failed || rows[x] == Interrupted || rows[x] == Cancelled)
    ensures var failed := exists x :: x in rows && (rows[x] == Failed || rows[x] == Interrupted);
      Outcome(g, rows, failing, during) == End(rows, [], if failed then FlowFailed else during)
  {
    var x :| x in rows && (rows[x] == Failed || rows[x] == Interrupted || rows[x] == Cancelled);
    assert x in Todo(rows) && Halting(rows[x]);
    assert Bad(rows) <==> exists x :: x in rows && (rows[x] == Failed || rows[x] == Interrupted);
  }

  /** The workflow completes exactly when its steps are all complete already, or no row is halted, the graph is acyclic
      and no unfinished step fails. */
  lemma CompletesExactly(g: Graph, rows: Rows, failing: set<Id>, during: FlowState)
    requires Known(g) && rows.Keys == g.Keys && Sound(g, rows) && during != FlowCompleted
    ensures Outcome(g, rows, failing, during).state == FlowCompleted <==>
      Todo(rows) == {} || (!Halted(rows) && Acyclic(g) && Todo(rows) * failing == {})
  {
    var e := Outcome(g, rows, failing, during);
    RunStartsInOrder(g, rows, failing, during);
    RunWrites(g, rows, failing, during);
    if Todo(rows) == {} {
      NothingReady(g, rows);
    } else if Halted(rows) {
      Ends(g, rows, failing, during);
    } else {
      CompletesAllButDoomed(g, rows, failing, during);
      if Started(e.rounds) * failing == {} && Acyclic(g) {
        AcyclicMeansNoneDoomed(g);
        assert forall x :: x in Todo(rows) ==> x in InState(e.rows, Completed);
        assert Todo(rows) <= Started(e.rounds);
      }
    }
  }

  // The rest of a run, after the log so far, ends as the whole does after the first log.
  predicate Continues(whole: End, first: seq<set<Id>>, rest: End, sofar: seq<set<Id>>) {
    whole.rows == rest.rows && whole.state == rest.state && first + whole.rounds == sofar + rest.rounds
  }

  lemma Reassociate(log: seq<set<Id>>, ready: set<Id>, rest: seq<set<Id>>)
    ensures log + ([ready] + rest) == (log + [ready]) + rest
  {}

  class Workflow {
    const steps: seq<PlanStep>
    var rows: Rows
    var state: FlowState
    // Sets of steps started together, in order.
    var starts: seq<set<Id>>

    constructor (steps: seq<PlanStep>)
      requires Accepted(steps)
      ensures this.steps == steps && Valid() && state == FlowCreated && starts == []
      ensures Founded(GraphOf(steps), rows) && forall x :: x in rows ==> rows[x] == Pending
    {
      this.steps := steps;
      rows := map x | x in GraphOf(steps).Keys :: Pending;
      state := FlowCreated;
      starts := [];
    }

    ghost predicate Valid()
      reads this
    {
      Accepted(steps) && rows.Keys == GraphOf(steps).Keys
    }

    /** Run one step whose work succeeds iff `ok`. A completed row is returned as it is. */
    method RunStep(x: Id, ok: bool) returns (done: bool)
      requires x in rows && rows[x] != Interrupted
      modifies this`rows
      ensures old(rows)[x] == Completed ==> done && rows == old(rows)
      ensures old(rows)[x] != Completed ==> done == ok && rows == old(rows)[x := if ok then Completed else Failed]
    {
      if rows[x] == Completed {
        return true;
      }
      rows := rows[x := Running];
      rows := rows[x := if ok then Completed else Failed];
      return ok;
    }

    /** Run a set of ready steps and wait for all of them. */
    method Gather(ready: set<Id>, failing: set<Id>)
      requires ready <= rows.Keys && forall x :: x in ready ==> rows[x] != Completed && rows[x] != Interrupted
      modifies this`rows, this`starts
      ensures starts == old(starts) + [ready] && rows == AfterRound(old(rows), ready, failing)
    {
      starts := starts + [ready];
      var left := ready;
      while left != {}
        invariant left <= ready && rows.Keys == old(rows).Keys && starts == old(starts) + [ready]
        invariant forall x :: x in rows ==>
          rows[x] == if x in ready - left then (if x in failing then Failed else Completed) else old(rows)[x]
      {
        var x :| x in left;
        var done := RunStep(x, x !in failing);
        left := left - {x};
      }
    }

    /** One pass of the runner's loop; `raised` when it leaves the loop by an exception. */
    method Pass(results: set<Id>, todo: set<Id>, failing: set<Id>) returns (raised: bool, ready: set<Id>)
      requires Valid() && results == InState(rows, Completed) && todo == Todo(rows) && todo != {}
      modifies this
      ensures Valid()
      ensures raised ==> var e := Outcome(GraphOf(steps), old(rows), failing, old(state));
        rows == e.rows && starts == old(starts) + e.rounds && state == e.state
      ensures !raised ==> Goes(GraphOf(steps), old(rows), failing) && ready == Ready(GraphOf(steps), old(rows))
      ensures !raised ==> rows == AfterRound(old(rows), ready, failing) && starts == old(starts) + [ready]
      ensures !raised ==> state == old(state)
    {
      ghost var g, during := GraphOf(steps), state;
      ready, raised := {}, true;
      if exists x :: x in todo && (rows[x].Failed? || rows[x].Interrupted?) {
        assert Bad(rows);
        state := FlowFailed;
      } else if exists x :: x in todo && rows[x].Cancelled? {
        assert Halted(rows) && !Bad(rows);
      } else {
        assert !Halted(rows);
        ready := set x | x in todo && GraphOf(steps)[x] <= results;
        assert ready == Ready(g, rows);
        if ready == {} {
          state := FlowFailed;
        } else {
          Gather(ready, failing);
          raised := ready * failing != {};
          if raised {
            state := FlowFailed;
          }
        }
      }
    }

    /** The runner; `failing` are the steps whose work would fail. */
    method Run(recovering: bool, failing: set<Id>)
      requires Valid()
      modifies this
      ensures Valid()
      ensures var e := Outcome(GraphOf(steps), old(rows), failing, if recovering then FlowRecovering else FlowRunning);
        rows == e.rows && starts == old(starts) + e.rounds && state == e.state
    {
      state := if recovering then FlowRecovering else FlowRunning;
      ghost var g, during, before, log := GraphOf(steps), state, rows, starts;
      var results := InState(rows, Completed);
      var todo := rows.Keys - results;
      while todo != {}
        invariant Valid() && results == InState(rows, Completed) && todo == Todo(rows) && state == during
        invariant Continues(Outcome(g, before, failing, during), log, Outcome(g, rows, failing, during), starts)
        decreases |todo|
      {
        ghost var was, sofar := rows, starts;
        var raised, ready := Pass(results, todo, failing);
        if raised {
          return;
        }
        Unfold(g, was, failing, during);
        Reassociate(sofar, ready, Outcome(g, rows, failing, during).rounds);
        results := results + ready;
        todo := todo - ready;
      }
      state := FlowCompleted;
    }

    /** Write one state to a set of rows, in plan order. */
    method Mark(which: set<Id>, to: RowState)
      requires Valid()
      modifies this`rows
      ensures Valid() && rows == Update(old(rows), which, to)
    {
      for i := 0 to |steps|
        invariant Valid()
        invariant forall j :: 0 <= j < i ==> steps[j].id in rows
        invariant forall j :: 0 <= j < i && steps[j].id in which ==> rows[steps[j].id] == to
        invariant forall x :: x in rows ==> rows[x] == old(rows)[x] || (x in which && rows[x] == to)
      {
        GraphOfStep(steps, i);
        if steps[i].id in which {
          rows := rows[steps[i].id := to];
        }
      }
      forall x | x in rows && x in which ensures rows[x] == to {
        var i := StepOfGraph(steps, x);
      }
    }

    function WindowsSteps(): set<Id> {
      set s | s in steps && s.executor.Windows? :: s.id
    }

    predicate OnWindows(x: Id) {
      exists s :: s in steps && s.id == x && s.executor.Windows?
    }

    /** After a restart. A Windows step found running is interrupted and blocks the workflow; otherwise an unfinished
        workflow gets a runner. */
    method Recover() returns (spawn: bool)
      requires Valid()
      modifies this`rows, this`state
      ensures Valid()
      ensures old(state).Terminal() || old(state).FlowBlocked? ==> !spawn && rows == old(rows) && state == old(state)
      ensures old(state).FlowCancelling? ==>
        && !spawn && state == FlowCancelled && rows == Update(old(rows), Unfinished(old(rows)), Cancelled)
        && forall x :: x in rows ==>
             rows[x] == if old(rows)[x] == Completed || old(rows)[x] == Failed then old(rows)[x] else Cancelled
      ensures !old(state).Terminal() && !old(state).FlowBlocked? && !old(state).FlowCancelling? ==>
        var hit := FoundRunning(old(rows), WindowsSteps());
        && rows == Update(old(rows), hit, Interrupted) && (spawn <==> hit == {})
        && state == (if spawn then old(state) else FlowBlocked)
        && (forall x :: x in rows ==>
              rows[x] == if old(rows)[x] == Running && OnWindows(x) then Interrupted else old(rows)[x])
        && (spawn <==> forall x :: x in old(rows) && old(rows)[x] == Running ==> !OnWindows(x))
    {
      if state.Terminal() || state.FlowBlocked? {
        return false;
      }
      if state.FlowCancelling? {
        var done := Cancel();
        return false;
      }
      var hit := FoundRunning(rows, WindowsSteps());
      Mark(hit, Interrupted);
      spawn := hit == {};
      if !spawn {
        state := FlowBlocked;
      }
    }

    /** Cancel: finished steps keep their state, all others are marked. A terminal workflow is left alone. */
    method Cancel() returns (done: bool)
      requires Valid()
      modifies this`rows, this`state
      ensures Valid() && (done <==> !old(state).Terminal())
      ensures done ==> rows == Update(old(rows), Unfinished(old(rows)), Cancelled) && state == FlowCancelled
      ensures done ==> forall x :: x in rows ==>
        rows[x] == if old(rows)[x] == Completed || old(rows)[x] == Failed then old(rows)[x] else Cancelled
      ensures !done ==> rows == old(rows) && state == old(state)
    {
      done := !state.Terminal();
      if done {
        state := FlowCancelling;
        Mark(Unfinished(rows), Cancelled);
        state := FlowCancelled;
      }
    }

    /** Resume a blocked workflow: the interrupted steps, and only they, become pending again. */
    method Resume() returns (done: bool)
      requires Valid()
      modifies this`rows, this`state
      ensures Valid() && (done <==> old(state).FlowBlocked?)
      ensures done ==> rows == ResetRows(old(rows), InState(old(rows), Interrupted)) && state == FlowRecovering
      ensures done ==> forall x :: x in rows ==>
        rows[x] == if old(rows)[x] == Interrupted then Pending else old(rows)[x]
      ensures !done ==> rows == old(rows) && state == old(state)
    {
      done := state.FlowBlocked?;
      if done {
        Mark(InState(rows, Interrupted), Pending);
        state := FlowRecovering;
      }
    }

    /** Retry a step: exactly the steps from which it is reachable through dependencies are reset; every other row,
        and with it every other completed result, stays. */
    method Retry(target: Id) returns (done: bool, reset: set<Id>)
      requires Valid()
      modifies this`rows, this`state
      ensures Valid() && (done <==> target in rows)
      ensures done ==>
        IsDownstream(GraphOf(steps), target, reset) && rows == ResetRows(old(rows), reset) && state == FlowRecovering
      ensures done ==> forall x :: x in rows ==> rows[x] == if x in reset then Pending else old(rows)[x]
      ensures !done ==> rows == old(rows) && state == old(state)
      ensures old(Founded(GraphOf(steps), rows)) ==> Founded(GraphOf(steps), rows)
    {
      done, reset := target in rows, {};
      if done {
        reset := Downstream(steps, target);
        if Founded(GraphOf(steps), rows) {
          ResetKeepsFounded(GraphOf(steps), rows, target, reset);
        }
        Mark(reset, Pending);
        state := FlowRecovering;
      }
    }
  }
}
