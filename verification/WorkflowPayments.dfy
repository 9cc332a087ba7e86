/** How often the initial agent invocation of a Windows step starts, against what operators asked for, under every
    interleaving. */
module WorkflowPayments {
  import opened WorkflowGraph
  import opened WorkflowRows
  import opened WorkflowRuns
  import opened WorkflowDrive
  import opened WorkflowRisk

  /** The runner may yet start `x`, if rows in the way are reset first. */
  ghost predicate MayStart(p: Plan, rows: Rows, r: Runner, left: set<Id>, x: Id) {
    match r
    case NoRunner => false
    case Ending => false
    case Spawned(_) =>
      && !Doomed(p.deps, x) && !Barred(rows, r, left) && x in rows
      && (x in left || rows[x].Pending? || rows[x].Running?)
    case Going(_, todo, active, begun, _, _) =>
      x in active - begun || (x in todo - active && !Doomed(p.deps, x) && !Barred(rows, r, left))
  }

  // A retry that waits, now or later.
  predicate Gives(s: Sweep, kids: set<Id>) {
    PauseOf(s).At? || Live(s, kids) != {}
  }

  /** It may do so while the retry waits: at once, as a step of the gather or because nothing is in the way and the step
      is to be done; or later, when what is in the way and the step itself have been reset. */
  ghost predicate StartsInPause(p: Plan, rows: Rows, r: Runner, s: Sweep, kids: set<Id>, x: Id) {
    && MayStart(p, rows, r, Left(s), x)
    && (|| (r.Going? && x in r.active - r.begun && Gives(s, kids))
        || (PassesNow(rows, r, s) && x in rows && (r.Going? || rows[x].Pending? || rows[x].Running?))
        || PassesLater(rows, r, s, kids))
  }

  // Nothing will halt a runner that the retry spawns: what halts now is reset, or completed by the runner that is
  // there.
  predicate ClearsUp(rows: Rows, r: Runner, left: set<Id>) {
    forall h :: h in rows && Halting(rows[h]) ==> h in left || OpenStep(r, h)
  }

  /** The runner starts the step while the retry waits, and the runner that the retry spawns can do so again. The first
      one is cancelled in the step, or, if the workflow counts as ended, fails before the row is reset. */
  ghost predicate Twice(p: Plan, w: World, s: Sweep, x: Id) {
    && StartsInPause(p, w.rows, w.runner, s, w.kids, x) && ClearsUp(w.rows, w.runner, Left(s))
    && (w.runner.Going? && w.state.Terminal() ==> x in Left(s) && x !in Halts(w.rows, w.runner))
  }

  // The runner that the retry spawns may start the step.
  predicate StartsAfter(w: World, x: Id) {
    && ClearsUp(w.rows, w.runner, Left(w.retry))
    && (|| x in Left(w.retry) || (x in w.rows && w.rows[x].Pending?)
        || (!Completes(w.rows, x) && !(w.runner.Going? && w.state.Terminal() && x in w.runner.begun)))
  }

  function One(b: bool): nat {
    if b then 1 else 0
  }

  /** How often `x` may still be started without another create, resume or retry: while a retry is under way, twice if
      it gives way to a runner that is there; otherwise once, if some runner gets there. */
  ghost function Owed(p: Plan, w: World, x: Id): nat {
    if w.retry.Over? then
      if Twice(p, w, w.retry, x) then 2
      else One(MayStart(p, w.rows, w.runner, Left(w.retry), x) || StartsAfter(w, x) || w.state.FlowBlocked?)
    else
      One(MayStart(p, w.rows, w.runner, {}, x)
          || (x in w.rows && w.rows[x].Pending? && ClearsUp(w.rows, w.runner, {})))
  }

  // Starts so far and those still owed.
  ghost function Bill(p: Plan, w: World, x: Id): nat {
    (if x in w.starts then w.starts[x] else 0) + Owed(p, w, x)
  }

  /** A retry that gives way, at a row with a live child task, to a runner that is there: it lets that runner start a
      step that was not owed, which the runner spawned by the retry can do again. */
  ghost predicate Overdraws(p: Plan, w: World, target: Id, x: Id) {
    && w.retry.Idle? && Owed(p, w, x) == 0
    && Twice(p, w, Over(DownstreamOf(p.deps, target), w.kids, NoPause), x)
  }

  lemma BillOfStart(p: Plan, w: World, x: Id)
    requires Shaped(p, w) && Yields(w) && x in w.rows && x in p.windows
    ensures Bill(p, Step(p, w, Start(x)), x) <= Bill(p, w, x)
  {
  }

  lemma BillOfOther(p: Plan, w: World, y: Id, x: Id)
    requires Shaped(p, w) && Yields(w) && x in w.rows && x in p.windows && y != x
    ensures Bill(p, Step(p, w, Start(y)), x) <= Bill(p, w, x)
  {
    var after := Step(p, w, Start(y));
    assert Halts(after.rows, after.runner) == Halts(w.rows, w.runner);
  }

  lemma BillOfTrack(p: Plan, w: World, y: Id, x: Id)
    requires Shaped(p, w) && Yields(w) && x in w.rows && x in p.windows
    ensures Bill(p, Step(p, w, Track(y)), x) <= Bill(p, w, x)
  {
  }

  lemma BillOfBind(p: Plan, w: World, y: Id, x: Id)
    requires Shaped(p, w) && Yields(w) && x in w.rows && x in p.windows
    ensures Bill(p, Step(p, w, Bind(y)), x) <= Bill(p, w, x)
  {
  }

  lemma BillOfFinish(p: Plan, w: World, y: Id, ok: bool, x: Id)
    requires Shaped(p, w) && Yields(w) && x in w.rows && x in p.windows
    ensures Bill(p, Step(p, w, Finish(y, ok)), x) <= Bill(p, w, x)
  {
  }

  lemma BillOfGathered(p: Plan, w: World, x: Id)
    requires Shaped(p, w) && Unheld(w) && Yields(w) && x in w.rows && x in p.windows
    ensures Bill(p, Step(p, w, Gathered), x) <= Bill(p, w, x)
  {
  }

  lemma BillOfFailure(p: Plan, w: World, y: Id, x: Id)
    requires Shaped(p, w) && Unheld(w) && Yields(w) && x in w.rows && x in p.windows
    ensures Bill(p, Step(p, w, GatherFailed(y)), x) <= Bill(p, w, x)
  {
  }

  lemma BillOfRound(p: Plan, w: World, x: Id)
    requires Shaped(p, w) && NoneDoomed(p, w) && Yields(w) && x in w.rows
    ensures Bill(p, Step(p, w, Round), x) <= Bill(p, w, x)
  {
    NoneDoomedStep(p, w, Round);
  }

  lemma BillOfBegin(p: Plan, w: World, x: Id)
    requires Shaped(p, w) && NoneDoomed(p, w) && Yields(w) && x in w.rows
    ensures Bill(p, Step(p, w, Begin), x) <= Bill(p, w, x)
  {
    NoneDoomedStep(p, w, Begin);
    HaltsFirstRound(w.rows);
  }

  lemma BillOfReset(p: Plan, w: World, y: Id, x: Id)
    requires Shaped(p, w) && w.up && x in w.rows && x in p.windows
    ensures Bill(p, Step(p, w, ResetRow(y)), x) <= Bill(p, w, x)
  {
    var after := Step(p, w, ResetRow(y));
    if after != w {
      assert Halts(w.rows, w.runner) <= Halts(after.rows, after.runner) + {y};
    }
  }

  lemma BillOfRetry(p: Plan, w: World, a: Action, x: Id)
    requires Shaped(p, w) && w.up && x in w.rows && x in p.windows && (a.Park? || a.Drop? || a.RetryDone?)
    ensures Bill(p, Step(p, w, a), x) <= Bill(p, w, x)
  {
  }

  // Rows are marked, and perhaps the workflow counts as cancelled.
  lemma BillOfMarks(p: Plan, w: World, now: set<Id>, state: FlowState, cancel: Cancellation, x: Id)
    requires Shaped(p, w) && Unheld(w) && x in w.rows && x in p.windows && (state == w.state || state == FlowCancelled)
    ensures Bill(p, w.(rows := Update(w.rows, now, Cancelled), state := state, cancel := cancel), x) <= Bill(p, w, x)
  {
    var rows := Update(w.rows, now, Cancelled);
    assert Halts(w.rows, w.runner) <= Halts(rows, w.runner);
    assert forall h :: h in w.rows && Halting(w.rows[h]) ==> Halting(rows[h]);
  }

  lemma BillOfCancel(p: Plan, w: World, a: Action, x: Id)
    requires Shaped(p, w) && Unheld(w) && Yields(w) && x in w.rows && x in p.windows
    ensures Bill(p, CancelStep(w, a), x) <= Bill(p, w, x)
  {
    if a.Snapshot? || a.Sweeping? {
      var after := CancelStep(w, a);
      BillOfMarks(p, w, a.now, after.state, after.cancel, x);
    }
  }

  lemma BillOfRestart(p: Plan, w: World, a: Action, x: Id)
    requires Shaped(p, w) && x in w.rows && x in p.windows && !w.up
    ensures Bill(p, Step(p, w, a), x) <= Bill(p, w, x)
  {
    if a.Recover? {
      assert w.rows[x].Running? ==> x in FoundRunning(w.rows, p.windows);
    }
  }

  lemma BillOfCrash(p: Plan, w: World, x: Id)
    requires Shaped(p, w) && x in w.rows && x in p.windows
    ensures Bill(p, CrashStep(w), x) <= Bill(p, w, x)
  {
  }

  lemma BillOfSweepCrash(p: Plan, w: World, now: set<Id>, x: Id)
    requires Shaped(p, w) && Unheld(w) && x in w.rows && x in p.windows
    ensures Bill(p, CrashSweeping(w, now), x) <= Bill(p, w, x)
  {
    var marked := w.(rows := Update(w.rows, now, Cancelled));
    BillOfCrash(p, w, x);
    assert forall h :: h in w.rows && Halting(w.rows[h]) ==> Halting(marked.rows[h]);
  }

  lemma BillOfOperator(p: Plan, w: World, a: Action, x: Id)
    requires Shaped(p, w) && Yields(w) && x in w.rows && x in p.windows && (a.Resume? || a.Retry? || a.ChildEnds?)
    requires a.Retry? ==> !Overdraws(p, w, a.x, x)
    ensures Bill(p, Step(p, w, a), x) <= Bill(p, w, x) + Step(p, w, a).ops - w.ops
  {
  }

  lemma OpsStep(p: Plan, w: World, a: Action)
    ensures Step(p, w, a).ops >= w.ops && (!a.Resume? && !a.Retry? ==> Step(p, w, a).ops == w.ops)
  {
  }

  // Only an operator action adds to the bill, by one.
  ghost predicate Billed(p: Plan, w: World, after: World, x: Id) {
    Bill(p, after, x) <= Bill(p, w, x) + after.ops - w.ops
  }

  lemma BillStep(p: Plan, w: World, a: Action, x: Id)
    requires Shaped(p, w) && NoneDoomed(p, w) && Unheld(w) && x in w.rows && x in p.windows
    requires a.Retry? ==> !Overdraws(p, w, a.x, x)
    ensures Billed(p, w, Step(p, w, a), x)
  {
    OpsStep(p, w, a);
    if a.Crash? {
      BillOfCrash(p, w, x);
    } else if !w.up {
      BillOfRestart(p, w, a, x);
    } else if OfRetry(a) {
      BillOfSweep(p, w, a, x);
    } else if Yields(w) {
      BillOfRest(p, w, a, x);
    }
  }

  lemma BillOfRest(p: Plan, w: World, a: Action, x: Id)
    requires Shaped(p, w) && NoneDoomed(p, w) && Unheld(w) && Yields(w) && x in w.rows && x in p.windows
    requires a.Retry? ==> !Overdraws(p, w, a.x, x)
    requires !OfRetry(a) && !a.Crash?
    ensures Billed(p, w, Step(p, w, a), x)
  {
    OpsStep(p, w, a);
    if OfRunner(a) {
      BillOfWork(p, w, a, x);
    } else if a.SweepCrash? {
      BillOfSweepCrash(p, w, a.now, x);
    } else if a.Resume? || a.Retry? || a.ChildEnds? {
      BillOfOperator(p, w, a, x);
    } else {
      BillOfCancel(p, w, a, x);
    }
  }

  lemma BillOfSweep(p: Plan, w: World, a: Action, x: Id)
    requires Shaped(p, w) && w.up && x in w.rows && x in p.windows && OfRetry(a)
    ensures Bill(p, Step(p, w, a), x) <= Bill(p, w, x)
  {
    if a.ResetRow? {
      BillOfReset(p, w, a.x, x);
    } else {
      BillOfRetry(p, w, a, x);
    }
  }

  lemma BillOfWork(p: Plan, w: World, a: Action, x: Id)
    requires Shaped(p, w) && NoneDoomed(p, w) && Unheld(w) && Yields(w) && x in w.rows && x in p.windows && OfRunner(a)
    ensures Bill(p, Step(p, w, a), x) <= Bill(p, w, x)
  {
    match a {
      case Begin => BillOfBegin(p, w, x);
      case Round => BillOfRound(p, w, x);
      case Start(y) =>
        if y == x {
          BillOfStart(p, w, x);
        } else {
          BillOfOther(p, w, y, x);
        }
      case Track(y) => BillOfTrack(p, w, y, x);
      case Bind(y) => BillOfBind(p, w, y, x);
      case Finish(y, ok) => BillOfFinish(p, w, y, ok, x);
      case Gathered => BillOfGathered(p, w, x);
      case GatherFailed(y) => BillOfFailure(p, w, y, x);
    }
  }

  ghost predicate FairRun(p: Plan, w: World, actions: seq<Action>, x: Id)
    decreases |actions|
  {
    actions == [] ||
    ((actions[0].Retry? ==> !Overdraws(p, w, actions[0].x, x)) && FairRun(p, Step(p, w, actions[0]), actions[1..], x))
  }

  lemma {:induction false} BillRun(p: Plan, w: World, actions: seq<Action>, x: Id)
    requires Shaped(p, w) && NoneDoomed(p, w) && Unheld(w) && x in w.rows && x in p.windows
    requires FairRun(p, w, actions, x)
    ensures var after := Run(p, w, actions);
      Shaped(p, after) && Bill(p, after, x) <= Bill(p, w, x) + after.ops - w.ops
    decreases |actions|
  {
    if actions != [] {
      ShapedStep(p, w, actions[0]);
      NoneDoomedStep(p, w, actions[0]);
      UnheldStep(p, w, actions[0]);
      BillStep(p, w, actions[0], x);
      BillRun(p, Step(p, w, actions[0]), actions[1..], x);
    }
  }

  /** Over any number of crashes and restarts, and whatever runs beside whatever, a Windows step's initial agent
      invocation starts at most once per operator action (create, resume, retry), if no retry overdraws. */
  lemma StartsAtMostOncePerAction(p: Plan, actions: seq<Action>, x: Id)
    requires Known(p.deps) && x in p.windows && x in p.deps && FairRun(p, Init(p), actions, x)
    ensures var w := Run(p, Init(p), actions); x in w.starts && w.starts[x] <= w.ops
  {
    BillRun(p, Init(p), actions, x);
  }

  // ------------------------------------------------------------------ Restarts

  /** A Windows step found running at a restart is interrupted, its workflow blocked, and nothing runs it. */
  lemma RestartBlocks(p: Plan, w: World, x: Id)
    requires Shaped(p, w) && x in p.windows && x in w.rows && w.rows[x].Running?
    requires !w.state.Terminal() && !w.state.FlowBlocked? && !w.state.FlowCancelling?
    ensures var after := Run(p, w, [Crash, Recover]);
      after.rows[x].Interrupted? && after.state.FlowBlocked? && after.runner.NoRunner?
  {
    var down := Step(p, w, Crash);
    assert Run(p, w, [Crash, Recover]) == Run(p, down, [Recover]) == Run(p, Step(p, down, Recover), []);
    assert x in FoundRunning(w.rows, p.windows);
  }

  /** Whatever else happens, an interrupted step becomes pending only by a resume or a retry, and no runner starts
      it. */
  lemma InterruptedNeedsOperator(p: Plan, w: World, a: Action, x: Id)
    requires Shaped(p, w) && x in w.rows && w.rows[x].Interrupted?
    requires !a.Resume? && a != ResetRow(x)
    ensures var after := Step(p, w, a);
      && x in after.rows && (after.rows[x].Interrupted? || after.rows[x].Cancelled?)
      && x in after.starts && after.starts[x] == w.starts[x]
  {
    if w.up && OfRunner(a) {
      NothingRuns(p, w, a);
    } else {
      InterruptedStays(p, w, a, x);
    }
  }

  lemma NothingRuns(p: Plan, w: World, a: Action)
    requires !w.runner.Going? && w.up && OfRunner(a)
    ensures Step(p, w, a).rows == w.rows && Step(p, w, a).starts == w.starts
  {
  }

  lemma InterruptedStays(p: Plan, w: World, a: Action, x: Id)
    requires x in w.rows && w.rows[x].Interrupted? && !(w.up && OfRunner(a)) && !a.Resume? && a != ResetRow(x)
    ensures var after := Step(p, w, a);
      x in after.rows && (after.rows[x].Interrupted? || after.rows[x].Cancelled?) && after.starts == w.starts
  {
  }

  // ------------------------------------------------------------------ A retry that overdraws is invoked twice

  predicate NoOperator(actions: seq<Action>) {
    forall i :: 0 <= i < |actions| ==> !actions[i].Resume? && !actions[i].Retry?
  }

  predicate Plain(actions: seq<Action>) {
    Quiet(actions) || ByRunner(actions) || NoOperator(actions)
  }

  lemma PlainConcat(s: seq<Action>, t: seq<Action>)
    requires Plain(s) && Plain(t)
    ensures NoOperator(s + t)
  {
  }

  lemma {:induction false} FairWithoutOperator(p: Plan, w: World, actions: seq<Action>, x: Id)
    requires NoOperator(actions)
    ensures FairRun(p, w, actions, x) && Run(p, w, actions).ops == w.ops
    decreases |actions|
  {
    if actions != [] {
      FairWithoutOperator(p, Step(p, w, actions[0]), actions[1..], x);
    }
  }

  // No row halts the runner, and the step is still to be done.
  predicate Startable(p: Plan, w: World, x: Id) {
    && Shaped(p, w) && Yields(w) && x in w.rows && !w.rows[x].Completed?
    && forall h :: h in w.rows ==> !Halting(w.rows[h])
  }

  // At the start of a step.
  predicate AtStep(p: Plan, w: World, x: Id, there: World)
    requires x in w.starts
  {
    && Startable(p, there, x) && there.runner.Going? && x in there.runner.active - there.runner.begun
    && there.starts[x] >= w.starts[x] && !there.state.Terminal() && there.retry == w.retry
  }

  lemma DriveToStep(p: Plan, w: World, going: World, x: Id) returns (way: seq<Action>)
    requires Startable(p, going, x) && going.runner.Going? && going.runner.broken == {} && going.runner.begun == {}
    requires x in going.runner.todo && !Doomed(p.deps, x) && x in w.starts && going.starts[x] >= w.starts[x]
    requires forall z :: z in going.runner.todo && z in going.rows ==> going.rows[z] != Completed
    requires !going.state.Terminal() && going.retry == w.retry
    ensures ByRunner(way) && AtStep(p, w, x, Run(p, going, way))
  {
    way := [];
    if x !in going.runner.active {
      way := Drive(p, going, x);
    }
  }

  lemma ToTheStep(p: Plan, w: World, x: Id) returns (way: seq<Action>)
    requires Startable(p, w, x) && w.runner.Spawned? && !Doomed(p.deps, x)
    ensures ByRunner(way) && AtStep(p, w, x, Run(p, w, way))
  {
    BeginGoes(p, w, x);
    var going := Step(p, w, Begin);
    ShapedStep(p, w, Begin);
    var rest := DriveToStep(p, w, going, x);
    ByRunnerConcat([Begin], rest);
    RunCons(p, w, Begin, rest);
    way := [Begin] + rest;
  }

  // The step has been started.
  predicate Begun(p: Plan, w: World, x: Id, after: World)
    requires x in w.starts
  {
    && Startable(p, after, x) && after.runner.Going? && after.starts[x] > w.starts[x] && !after.state.Terminal()
    && after.retry == w.retry
  }

  lemma StartThere(p: Plan, w: World, x: Id, there: World)
    requires x in w.starts && AtStep(p, w, x, there) && x in p.windows
    ensures Begun(p, w, x, Step(p, there, Start(x)))
  {
    ShapedStep(p, there, Start(x));
  }

  /** A spawned runner gets to the step and starts it. */
  lemma BeginAndStart(p: Plan, w: World, x: Id) returns (actions: seq<Action>)
    requires Startable(p, w, x) && w.runner.Spawned? && !Doomed(p.deps, x) && x in p.windows
    ensures ByRunner(actions) && Begun(p, w, x, Run(p, w, actions))
  {
    var way := ToTheStep(p, w, x);
    StartThere(p, w, x, Run(p, w, way));
    RunConcat(p, w, way, [Start(x)]);
    RunOne(p, Run(p, w, way), Start(x));
    ByRunnerConcat(way, [Start(x)]);
    actions := way + [Start(x)];
  }

  // The retry's own runner will find no row that halts it, and the step still to be done.
  predicate Restartable(p: Plan, w: World, x: Id) {
    && Shaped(p, w) && w.up && w.retry.Over? && x in w.rows && (x in w.retry.left || !w.rows[x].Completed?)
    && forall h :: h in w.rows && Halting(w.rows[h]) ==> h in w.retry.left
  }

  // The runner is cancelled in the step.
  lemma StopInStep(p: Plan, w: World, x: Id)
    requires Restartable(p, w, x) && Yields(w) && w.runner.Going? && !w.state.Terminal()
    ensures var after := Run(p, w, [Cancel, Stopped]);
      after == w.(state := FlowCancelling, runner := NoRunner, cancel := w.cancel.(stopping := true))
      && Restartable(p, after, x)
  {
    var first := Step(p, w, Cancel);
    RunCons(p, w, Cancel, [Stopped]);
    RunOne(p, first, Stopped);
    ShapedRun(p, w, [Cancel, Stopped]);
  }

  lemma FailedInStep(p: Plan, w: World, x: Id, next: World)
    requires Restartable(p, w, x) && Yields(w) && Unheld(w) && OpenStep(w.runner, x) && x in w.retry.left
    requires w.runner.broken == {} && Gathers(w, Open(w.runner), {x}, next)
    ensures GatherOver(next.runner) && x in next.runner.broken && Step(p, next, GatherFailed(x)) == FailGather(next, x)
    ensures forall h :: h in next.rows && Halting(next.rows[h]) ==> h in w.retry.left
  {
  }

  // Or the step fails, and with it the runner.
  lemma FailInStep(p: Plan, w: World, x: Id) returns (actions: seq<Action>)
    requires Restartable(p, w, x) && Yields(w) && Unheld(w) && OpenStep(w.runner, x) && x in w.retry.left
    requires w.runner.broken == {}
    ensures ByRunner(actions)
    ensures var after := Run(p, w, actions);
      Restartable(p, after, x) && after.runner.NoRunner? && after.starts[x] >= w.starts[x]
  {
    var ended := FinishAll(p, w, {x});
    var next := Run(p, w, ended);
    FailedInStep(p, w, x, next);
    ThenEnd(p, w, ended, GatherFailed(x));
    actions := ended + [GatherFailed(x)];
    ShapedRun(p, w, actions);
  }

  // The retry goes on to its end and spawns another runner.
  lemma EndsAndSpawns(p: Plan, w: World, x: Id, next: World)
    requires Restartable(p, w, x) && w.runner.NoRunner? && next == ResetSome(w, w.retry.left) && Shaped(p, next)
    ensures var after := Step(p, next, RetryDone);
      Startable(p, after, x) && after.runner.Spawned? && after.starts == w.starts
  {
    ShapedStep(p, next, RetryDone);
    assert next.retry.left == {};
  }

  lemma Respawn(p: Plan, w: World, x: Id) returns (actions: seq<Action>)
    requires Restartable(p, w, x) && w.runner.NoRunner?
    ensures NoOperator(actions)
    ensures var after := Run(p, w, actions);
      Startable(p, after, x) && after.runner.Spawned? && after.starts == w.starts
  {
    var first := GoOnThrough(p, w, w.retry.left);
    var next := Run(p, w, first);
    assert WaitingRow(w.retry) + w.retry.left == w.retry.left;
    ShapedRun(p, w, first);
    EndsAndSpawns(p, w, x, next);
    RunSnoc(p, w, first, RetryDone);
    PlainConcat(first, [RetryDone]);
    actions := first + [RetryDone];
  }

  lemma StartAgain(p: Plan, w: World, x: Id) returns (actions: seq<Action>)
    requires Restartable(p, w, x) && w.runner.NoRunner? && !Doomed(p.deps, x) && x in p.windows
    ensures NoOperator(actions)
    ensures var after := Run(p, w, actions); x in after.starts && after.starts[x] > w.starts[x]
  {
    var respawn := Respawn(p, w, x);
    var again := BeginAndStart(p, Run(p, w, respawn), x);
    RunConcat(p, w, respawn, again);
    actions := respawn + again;
  }

  // It is started once, and the runner is stopped in it or fails.
  predicate StartedOnce(p: Plan, w: World, x: Id, after: World)
    requires x in w.starts
  {
    Restartable(p, after, x) && after.runner.NoRunner? && x in after.starts && after.starts[x] > w.starts[x]
  }

  // From a retry that waits, with nothing in the way.
  lemma StartAndStop(p: Plan, w: World, x: Id) returns (actions: seq<Action>)
    requires Startable(p, w, x) && w.runner.Spawned? && w.retry.Over? && !Doomed(p.deps, x) && x in p.windows
    ensures NoOperator(actions) && StartedOnce(p, w, x, Run(p, w, actions))
  {
    var once := BeginAndStart(p, w, x);
    StopInStep(p, Run(p, w, once), x);
    RunConcat(p, w, once, [Cancel, Stopped]);
    PlainConcat(once, [Cancel, Stopped]);
    actions := once + [Cancel, Stopped];
  }

  lemma WaitsClear(p: Plan, begun: World, x: Id, next: World, reset: set<Id>)
    requires Shaped(p, begun) && begun.retry.Over? && begun.runner.Spawned?
    requires Twice(p, begun, begun.retry, x) && Shaped(p, next) && Yields(next)
    requires next.rows == ResetRows(begun.rows, reset)
    requires Halts(begun.rows, begun.runner) <= reset && (x in begun.retry.left ==> x in reset)
    ensures Startable(p, next, x)
  {
    assert forall h :: h in begun.rows && Halting(begun.rows[h]) ==> h in Halts(begun.rows, begun.runner);
  }

  // The retry resets what is in the way, and waits.
  lemma PauseClear(p: Plan, begun: World, x: Id) returns (first: seq<Action>)
    requires Shaped(p, begun) && begun.up && Busy(begun) && begun.runner.Spawned? && x in p.windows
    requires Twice(p, begun, begun.retry, x)
    ensures Quiet(first)
    ensures var next := Run(p, begun, first);
      && Startable(p, next, x) && next.runner.Spawned? && next.retry.Over? && next.starts == begun.starts
  {
    var halts := Halts(begun.rows, begun.runner);
    var j :| j in Live(begun.retry, begun.kids) && j !in halts && PauseOf(begun.retry) != At(j);
    var some := halts + (if x in begun.retry.left then {x} else {});
    first := ParkBehind(p, begun, some, j);
    WaitsClear(p, begun, x, Run(p, begun, first), WaitingRow(begun.retry) + some);
  }

  lemma OnceSpawned(p: Plan, begun: World, x: Id) returns (actions: seq<Action>)
    requires Shaped(p, begun) && begun.up && Busy(begun) && begun.runner.Spawned? && x in p.windows
    requires Twice(p, begun, begun.retry, x) && x in begun.starts
    ensures NoOperator(actions) && StartedOnce(p, begun, x, Run(p, begun, actions))
  {
    var first := PauseClear(p, begun, x);
    var rest := StartAndStop(p, Run(p, begun, first), x);
    RunConcat(p, begun, first, rest);
    PlainConcat(first, rest);
    actions := first + rest;
  }

  // ------------------------------------------------------------------ The same beside a runner in its loop

  // At the step, and nothing will halt the retry's own runner.
  predicate AtStepClear(p: Plan, w: World, x: Id, there: World)
    requires x in w.starts
  {
    && Restartable(p, there, x) && Yields(there) && Unheld(there) && OpenStep(there.runner, x)
    && x !in there.runner.begun && there.runner.broken == {} && !Completes(there.rows, x)
    && x in there.starts && there.starts[x] >= w.starts[x] && there.state == w.state
  }

  // What halts anything now is still to be reset: what the runner had to complete, it has.
  lemma HaltsAreLeft(p: Plan, begun: World, x: Id, next: World, there: World)
    requires Shaped(p, begun) && begun.retry.Over? && begun.runner.Going? && Unheld(begun)
    requires ClearsUp(begun.rows, begun.runner, begun.retry.left) && x !in begun.runner.active
    requires next.runner == begun.runner && next.rows == ResetRows(begun.rows, Halts(begun.rows, begun.runner))
    requires Onward(next, there, x)
    ensures forall h :: h in there.rows && Halting(there.rows[h]) ==>
      h in begun.retry.left && h !in Halts(begun.rows, begun.runner)
  {
    forall h | OpenStep(begun.runner, h) ensures h in there.rows && there.rows[h] == Completed {
      assert h in there.runner.results && h !in next.runner.results + next.runner.good;
    }
    forall h | h in there.rows && Halting(there.rows[h])
      ensures h in begun.retry.left && h !in Halts(begun.rows, begun.runner) {
      assert there.rows[h] == next.rows[h] == begun.rows[h];
    }
  }

  // The retry resets the rows in the way, waits, and the runner gets to the step.
  lemma PauseAndDrive(p: Plan, begun: World, x: Id) returns (actions: seq<Action>)
    requires Shaped(p, begun) && Unheld(begun) && begun.up && Busy(begun) && begun.runner.Going?
    requires Twice(p, begun, begun.retry, x) && x in begun.runner.todo - begun.runner.active && x in begun.starts
    ensures NoOperator(actions)
    ensures var there := Run(p, begun, actions);
      && AtStepClear(p, begun, x, there)
      && (x in begun.retry.left && x !in Halts(begun.rows, begun.runner) ==> x in Left(there.retry))
  {
    var halts := Halts(begun.rows, begun.runner);
    var j :| j in Live(begun.retry, begun.kids) && j !in halts && PauseOf(begun.retry) != At(j);
    var first := ParkBehind(p, begun, halts, j);
    var next := Run(p, begun, first);
    assert WaitingRow(begun.retry) + halts == halts;
    assert Clear(next);
    var way := Drive(p, next, x);
    HaltsAreLeft(p, begun, x, next, Run(p, next, way));
    UnheldRun(p, begun, first);
    UnheldRun(p, next, way);
    PlainConcat(first, way);
    RunConcat(p, begun, first, way);
    actions := first + way;
  }

  lemma StartClear(p: Plan, w: World, x: Id, there: World)
    requires x in w.starts && AtStepClear(p, w, x, there) && x in p.windows
    ensures var begun := Step(p, there, Start(x));
      && Restartable(p, begun, x) && Yields(begun) && Unheld(begun) && OpenStep(begun.runner, x)
      && begun.runner.broken == {} && begun.state == there.state && Left(begun.retry) == Left(there.retry)
      && x in begun.starts && begun.starts[x] > w.starts[x]
  {
    ShapedStep(p, there, Start(x));
    UnheldStep(p, there, Start(x));
  }

  lemma EndInStep(p: Plan, w: World, x: Id) returns (end: seq<Action>)
    requires Restartable(p, w, x) && Yields(w) && Unheld(w) && OpenStep(w.runner, x) && w.runner.broken == {}
    requires w.state.Terminal() ==> x in w.retry.left
    ensures Plain(end)
    ensures var after := Run(p, w, end);
      Restartable(p, after, x) && after.runner.NoRunner? && after.starts[x] >= w.starts[x]
  {
    if w.state.Terminal() {
      end := FailInStep(p, w, x);
    } else {
      end := [Cancel, Stopped];
      StopInStep(p, w, x);
    }
  }

  // The step is started, and the runner is cancelled in it or fails with it.
  lemma StartAndEnd(p: Plan, w: World, x: Id, there: World) returns (actions: seq<Action>)
    requires x in w.starts && AtStepClear(p, w, x, there) && x in p.windows
    requires there.state.Terminal() ==> x in Left(there.retry)
    ensures NoOperator(actions) && StartedOnce(p, w, x, Run(p, there, actions))
  {
    StartClear(p, w, x, there);
    var end := EndInStep(p, Step(p, there, Start(x)), x);
    RunCons(p, there, Start(x), end);
    PlainConcat([Start(x)], end);
    actions := [Start(x)] + end;
  }

  lemma OnceGoing(p: Plan, begun: World, x: Id) returns (actions: seq<Action>)
    requires Shaped(p, begun) && Unheld(begun) && begun.up && Busy(begun) && begun.runner.Going? && x in p.windows
    requires Twice(p, begun, begun.retry, x) && x in begun.runner.todo - begun.runner.active && x in begun.starts
    ensures NoOperator(actions) && StartedOnce(p, begun, x, Run(p, begun, actions))
  {
    var way := PauseAndDrive(p, begun, x);
    var there := Run(p, begun, way);
    var end := StartAndEnd(p, begun, x, there);
    PlainConcat(way, end);
    RunConcat(p, begun, way, end);
    actions := way + end;
  }

  // ------------------------------------------------------------------ The guard is exact

  lemma StartTwice(p: Plan, w: World, target: Id, x: Id) returns (actions: seq<Action>)
    requires Shaped(p, w) && Unheld(w) && Yields(w) && target in w.rows && x in w.rows && x in p.windows
    requires Overdraws(p, w, target, x)
    ensures NoOperator(actions)
    ensures var after := Run(p, Step(p, w, Retry(target)), actions);
      x in after.starts && after.starts[x] >= w.starts[x] + 2
  {
    var begun := Step(p, w, Retry(target));
    ShapedStep(p, w, Retry(target));
    var once;
    if w.runner.Spawned? {
      once := OnceSpawned(p, begun, x);
    } else {
      once := OnceGoing(p, begun, x);
    }
    var again := StartAgain(p, Run(p, begun, once), x);
    RunConcat(p, begun, once, again);
    PlainConcat(once, again);
    actions := once + again;
  }

  /** Some run without a further operator action starts it more often than was owed and the retry pays for. */
  ghost predicate StartsUnpaid(p: Plan, w: World, target: Id, x: Id)
    requires x in w.starts
  {
    exists actions {:trigger NoOperator(actions)} :: NoOperator(actions) &&
      var after := Run(p, Step(p, w, Retry(target)), actions);
      x in after.starts && after.starts[x] > w.starts[x] + Owed(p, w, x) + 1
  }

  /** After a retry, some run starts the step more often than paid for exactly when the retry overdraws. */
  lemma OverdrawsExactly(p: Plan, w: World, target: Id, x: Id)
    requires Shaped(p, w) && NoneDoomed(p, w) && Unheld(w) && Yields(w) && w.retry.Idle? && target in w.rows
    requires x in w.rows && x in p.windows
    ensures StartsUnpaid(p, w, target, x) <==> Overdraws(p, w, target, x)
  {
    if Overdraws(p, w, target, x) {
      var actions := StartTwice(p, w, target, x);
    } else {
      var begun := Step(p, w, Retry(target));
      ShapedStep(p, w, Retry(target));
      NoneDoomedStep(p, w, Retry(target));
      UnheldStep(p, w, Retry(target));
      BillStep(p, w, Retry(target), x);
      forall actions | NoOperator(actions)
        ensures Bill(p, Run(p, begun, actions), x) <= Bill(p, w, x) + 1 {
        FairWithoutOperator(p, begun, actions, x);
        BillRun(p, begun, actions, x);
      }
    }
  }

  // ------------------------------------------------------------------ Witness: one retry, two invocations

  // A completed Windows step, and a remote one that depends on it and has a live child task; recovery has spawned a
  // runner that has not begun.
  const PAIR := Plan(map["1" := {}, "2" := {"1"}], {"1"})

  function PairWorld(one: RowState, two: RowState, state: FlowState, runner: Runner, retry: Sweep, stopping: bool,
                     kids: set<Id>, starts: nat, ops: nat): World {
    World(map["1" := one, "2" := two], state, runner, retry, Cancellation(stopping, false, {}), kids, true,
          map["1" := starts, "2" := 0], ops)
  }

  const RECOVERED := PairWorld(Completed, Running, FlowRunning, Spawned(true), Idle, false, {"2"}, 1, 1)
  const STARTED := Going({}, {"1", "2"}, {"1"}, {"1"}, {}, {})

  lemma PairWaits()
    ensures Run(PAIR, RECOVERED, [Retry("1"), ResetRow("1"), Park("2")]) ==
      PairWorld(Pending, Running, FlowRunning, Spawned(true), Over({"2"}, {"2"}, At("2")), false, {"2"}, 1, 2)
  {
    DownstreamIs(PAIR.deps, "1", {"1", "2"});
    var w1 := PairWorld(Completed, Running, FlowRunning, Spawned(true), Over({"1", "2"}, {"2"}, NoPause), false, {"2"},
                        1, 2);
    assert Step(PAIR, RECOVERED, Retry("1")) == w1;
    var w2 := PairWorld(Pending, Running, FlowRunning, Spawned(true), Over({"2"}, {"2"}, NoPause), false, {"2"}, 1, 2);
    assert w1.rows["1" := Pending] == w2.rows && {"1", "2"} - {"1"} == {"2"} && {"2"} - {"1"} == {"2"};
    assert Step(PAIR, w1, ResetRow("1")) == w2;
    RunCons(PAIR, RECOVERED, Retry("1"), [ResetRow("1"), Park("2")]);
    RunCons(PAIR, w1, ResetRow("1"), [Park("2")]);
    RunOne(PAIR, w2, Park("2"));
  }

  const READY := Going({}, {"1", "2"}, {"1"}, {}, {}, {})

  lemma PairEnters(one: RowState, two: RowState, state: FlowState, retry: Sweep, stopping: bool, kids: set<Id>,
                   starts: nat)
    requires one in {Pending, Running} && two in {Pending, Running} && (retry.Over? ==> retry.pause.At?)
    ensures Step(PAIR, PairWorld(one, two, state, Spawned(true), retry, stopping, kids, starts, 2), Begin) ==
      PairWorld(one, two, FlowRecovering, READY, retry, stopping, kids, starts, 2)
  {
    var w0 := PairWorld(one, two, state, Spawned(true), retry, stopping, kids, starts, 2);
    assert InState(w0.rows, Completed) == {} && w0.rows.Keys - {} == {"1", "2"};
    assert ReadyOf(PAIR, Enter(w0).runner) == {"1"};
  }

  lemma PairStarts(one: RowState, two: RowState, retry: Sweep, stopping: bool, kids: set<Id>, starts: nat)
    requires one in {Pending, Running} && (retry.Over? ==> retry.pause.At?)
    ensures Step(PAIR, PairWorld(one, two, FlowRecovering, READY, retry, stopping, kids, starts, 2), Start("1")) ==
      PairWorld(Running, two, FlowRecovering, STARTED, retry, stopping, kids, starts + 1, 2)
  {
    var w1 := PairWorld(one, two, FlowRecovering, READY, retry, stopping, kids, starts, 2);
    var w2 := PairWorld(Running, two, FlowRecovering, STARTED, retry, stopping, kids, starts + 1, 2);
    assert w1.rows["1" := Running] == w2.rows && w1.starts["1" := starts + 1] == w2.starts && {} + {"1"} == {"1"};
  }

  lemma PairBegins(one: RowState, two: RowState, state: FlowState, retry: Sweep, stopping: bool, kids: set<Id>,
                   starts: nat)
    requires one in {Pending, Running} && two in {Pending, Running} && (retry.Over? ==> retry.pause.At?)
    ensures var w := PairWorld(one, two, state, Spawned(true), retry, stopping, kids, starts, 2);
      Run(PAIR, w, [Begin, Start("1")]) ==
        PairWorld(Running, two, FlowRecovering, STARTED, retry, stopping, kids, starts + 1, 2)
  {
    var w := PairWorld(one, two, state, Spawned(true), retry, stopping, kids, starts, 2);
    PairEnters(one, two, state, retry, stopping, kids, starts);
    PairStarts(one, two, retry, stopping, kids, starts);
    RunCons(PAIR, w, Begin, [Start("1")]);
    RunOne(PAIR, Step(PAIR, w, Begin), Start("1"));
  }

  const WAITING := Over({"2"}, {"2"}, At("2"))

  lemma PairCancels()
    ensures Run(PAIR, PairWorld(Running, Running, FlowRecovering, STARTED, WAITING, false, {"2"}, 2, 2),
                [Cancel, Stopped]) ==
      PairWorld(Running, Running, FlowCancelling, NoRunner, WAITING, true, {"2"}, 2, 2)
  {
    var w0 := PairWorld(Running, Running, FlowRecovering, STARTED, WAITING, false, {"2"}, 2, 2);
    var w1 := PairWorld(Running, Running, FlowCancelling, Ending, WAITING, true, {"2"}, 2, 2);
    assert Step(PAIR, w0, Cancel) == w1;
    RunCons(PAIR, w0, Cancel, [Stopped]);
    RunOne(PAIR, w1, Stopped);
  }

  lemma PairGoesOn()
    ensures Run(PAIR, PairWorld(Running, Running, FlowCancelling, NoRunner, WAITING, true, {"2"}, 2, 2),
                [ResetRow("2"), RetryDone]) ==
      PairWorld(Running, Pending, FlowRecovering, Spawned(true), Idle, true, {}, 2, 2)
  {
    var w2 := PairWorld(Running, Running, FlowCancelling, NoRunner, WAITING, true, {"2"}, 2, 2);
    var w3 := PairWorld(Running, Pending, FlowCancelling, NoRunner, Over({}, {}, NoPause), true, {}, 2, 2);
    assert w2.rows["2" := Pending] == w3.rows && {"2"} - {"2"} == {};
    assert Step(PAIR, w2, ResetRow("2")) == w3;
    RunCons(PAIR, w2, ResetRow("2"), [RetryDone]);
    RunOne(PAIR, w3, RetryDone);
  }

  /** One retry, two invocations. The retry waits for the child task of the second step; the runner begins and starts
      the first step, which has been reset; a cancellation stops it there; and the retry, going on, spawns another one
      before the cancellation has read the rows. */
  lemma RetryInvokesTwice()
    ensures var w := Run(PAIR, RECOVERED, [Retry("1"), ResetRow("1"), Park("2")] + ([Begin, Start("1")] +
                         ([Cancel, Stopped] + ([ResetRow("2"), RetryDone] + [Begin, Start("1")]))));
      w.starts == map["1" := 3, "2" := 0] && w.ops == 2
  {
    var start := [Begin, Start("1")];
    var go := [ResetRow("2"), RetryDone];
    PairWaits();
    PairBegins(Pending, Running, FlowRunning, WAITING, false, {"2"}, 1);
    PairCancels();
    PairGoesOn();
    PairBegins(Running, Pending, FlowRecovering, Idle, true, {}, 2);
    RunConcat(PAIR, RECOVERED, [Retry("1"), ResetRow("1"), Park("2")], start + ([Cancel, Stopped] + (go + start)));
    var w1 := Run(PAIR, RECOVERED, [Retry("1"), ResetRow("1"), Park("2")]);
    RunConcat(PAIR, w1, start, [Cancel, Stopped] + (go + start));
    RunConcat(PAIR, Run(PAIR, w1, start), [Cancel, Stopped], go + start);
    RunConcat(PAIR, Run(PAIR, Run(PAIR, w1, start), [Cancel, Stopped]), go, start);
  }
}
