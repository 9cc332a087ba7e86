/** One workflow under every interleaving of its runner with operator actions, child tasks, crashes and restarts
    (main.py). Each action is the code between two awaits, or a single write where a crash can fall behind it. A retry
    and a cancellation wait only while the child task of a row is being cancelled, a cancellation also for the runner
    it has stopped; in between nothing else comes. */
module WorkflowRuns {
  import opened WorkflowGraph
  import opened WorkflowRows

  datatype Plan = Plan(deps: Graph, windows: set<Id>)

  // The runner coroutine: spawned but not begun; in its loop, with the steps it holds completed, those left, those of
  // the current gather, and of these the begun, the successful and the failed ones; or cancelled but not yet ended.
  datatype Runner =
    | NoRunner
    | Spawned(recovering: bool)
    | Going(results: set<Id>, todo: set<Id>, active: set<Id>, begun: set<Id>, good: set<Id>, broken: set<Id>)
    | Ending

  datatype Pause = NoPause | At(x: Id)

  // A retry: rows it has yet to reset, those that had a live child task when it read them, and where it waits.
  datatype Sweep = Idle | Over(left: set<Id>, may: set<Id>, pause: Pause)

  // Cancellations: one waits for the runner to end; one waits for a child task; rows they have yet to mark.
  datatype Cancellation = Cancellation(stopping: bool, sweeping: bool, marks: set<Id>)

  // kids: rows whose child task is live; starts: initial agent invocations of Windows steps; ops: create plus the
  // resumes and retries so far.
  datatype World = World(
    rows: Rows, state: FlowState, runner: Runner, retry: Sweep, cancel: Cancellation, kids: set<Id>, up: bool,
    starts: map<Id, nat>, ops: nat)

  const NONE := Cancellation(false, false, {})

  datatype Action =
    | Begin | Round | Start(x: Id) | Track(x: Id) | Bind(x: Id) | Finish(x: Id, ok: bool)
    | Gathered | GatherFailed(x: Id)
    | Retry(x: Id) | ResetRow(x: Id) | Park(x: Id) | Drop(x: Id) | RetryDone
    | Cancel | Stopped | Snapshot(now: set<Id>, at: Pause) | Sweeping(now: set<Id>, at: Pause)
    | Resume | ChildEnds(x: Id)
    | Crash | SweepCrash(now: set<Id>) | Recover | MarkHit(x: Id)

  ghost function Init(p: Plan): World {
    World(map x | x in p.deps.Keys :: Pending, FlowCreated, Spawned(false), Idle, NONE, {}, true,
          map x | x in p.deps.Keys :: 0, 1)
  }

  // ------------------------------------------------------------------ Steps

  function ReadyOf(p: Plan, r: Runner): set<Id>
    requires r.Going?
  {
    set x | x in r.todo && x in p.deps && p.deps[x] <= r.results
  }

  predicate AnyIn(rows: Rows, among: set<Id>, bad: set<RowState>) {
    exists x :: x in among && x in rows && rows[x] in bad
  }

  function NextRound(p: Plan, w: World): World
    requires w.runner.Going?
  {
    if w.runner.todo == {} then w.(state := FlowCompleted, runner := NoRunner)
    else if AnyIn(w.rows, w.runner.todo, {Failed, Interrupted}) then w.(state := FlowFailed, runner := NoRunner)
    else if AnyIn(w.rows, w.runner.todo, {Cancelled}) then w.(runner := NoRunner)
    else if ReadyOf(p, w.runner) == {} then w.(state := FlowFailed, runner := NoRunner)
    else w.(runner := w.runner.(active := ReadyOf(p, w.runner)))
  }

  // The runner reads the rows and enters its loop.
  function Enter(w: World): World
    requires w.runner.Spawned?
  {
    var results := InState(w.rows, Completed);
    w.(state := if w.runner.recovering then FlowRecovering else FlowRunning,
       runner := Going(results, w.rows.Keys - results, {}, {}, {}, {}))
  }

  // Nothing can come between that and its first round.
  function BeginRun(p: Plan, w: World): World
    requires w.runner.Spawned?
  {
    NextRound(p, Enter(w))
  }

  function StartStep(p: Plan, w: World, x: Id): World
    requires w.runner.Going? && x in w.rows && x in w.starts
  {
    var r := w.runner.(begun := w.runner.begun + {x});
    if w.rows[x].Completed? then w.(runner := r.(good := r.good + {x}))
    else if w.rows[x].Interrupted? && x in p.windows then
      w.(rows := w.rows[x := Failed], runner := r.(broken := r.broken + {x}))
    else
      w.(rows := w.rows[x := Running], runner := r,
         starts := if x in p.windows then w.starts[x := w.starts[x] + 1] else w.starts)
  }

  // The step's child task is live from now on; a row with a stored one gets no other.
  function BindChild(w: World, x: Id): World {
    w.(rows := w.rows[x := Running], kids := w.kids + {x})
  }

  function FinishStep(w: World, x: Id, ok: bool): World
    requires w.runner.Going?
  {
    if ok then
      w.(rows := w.rows[x := Completed], runner := w.runner.(good := w.runner.good + {x}), kids := w.kids - {x})
    else w.(rows := w.rows[x := Failed], runner := w.runner.(broken := w.runner.broken + {x}))
  }

  // The whole gather succeeded.
  function EndGather(w: World): World
    requires w.runner.Going?
  {
    var r := w.runner;
    w.(runner := Going(r.results + r.active, r.todo - r.active, {}, {}, {}, {}))
  }

  // The first failed outcome ends the runner, which marks that row once more.
  function FailGather(w: World, x: Id): World {
    w.(rows := w.rows[x := Failed], state := FlowFailed, runner := NoRunner)
  }

  predicate GatherOver(r: Runner)
    requires r.Going?
  {
    r.active != {} && r.active <= r.good + r.broken
  }

  predicate Underway(r: Runner, x: Id)
    requires r.Going?
  {
    x in r.begun - r.good - r.broken
  }

  function RunnerStep(p: Plan, w: World, a: Action): World {
    if a.Begin? && w.runner.Spawned? then BeginRun(p, w)
    else if !w.runner.Going? then w
    else if a.Round? && w.runner.active == {} then NextRound(p, w)
    else if a.Start? && a.x in w.runner.active - w.runner.begun && a.x in w.rows && a.x in w.starts then
      StartStep(p, w, a.x)
    else if a.Track? && a.x in w.runner.active - w.runner.begun - p.windows then
      w.(runner := w.runner.(begun := w.runner.begun + {a.x}))
    else if a.Bind? && Underway(w.runner, a.x) && a.x in w.rows && a.x !in p.windows + w.kids + May(w.retry) then
      BindChild(w, a.x)
    else if a.Finish? && Underway(w.runner, a.x) && a.x in w.rows then FinishStep(w, a.x, a.ok)
    else if a.Gathered? && GatherOver(w.runner) && w.runner.broken == {} then EndGather(w)
    else if a.GatherFailed? && GatherOver(w.runner) && a.x in w.runner.broken && a.x in w.rows then FailGather(w, a.x)
    else w
  }

  function SpawnIfNone(r: Runner): Runner {
    if r.NoRunner? then Spawned(true) else r
  }

  ghost function DownstreamOf(g: Graph, target: Id): (reset: set<Id>)
    ensures IsDownstream(g, target, reset)
  {
    set x | x in g && Reaches(g, x, target)
  }

  function Left(s: Sweep): set<Id> {
    if s.Over? then s.left else {}
  }

  function May(s: Sweep): set<Id> {
    if s.Over? then s.may else {}
  }

  // Rows at whose child task the retry will wait, and where it waits now.
  function Live(s: Sweep, kids: set<Id>): set<Id> {
    Left(s) * May(s) * kids
  }

  function PauseOf(s: Sweep): Pause {
    if s.Over? then s.pause else NoPause
  }

  /** A retry between two awaits: nothing else comes. */
  predicate Busy(w: World) {
    w.retry.Over? && w.retry.pause.NoPause?
  }

  // Others may act.
  predicate Yields(w: World) {
    w.up && !Busy(w)
  }

  // At such a row a retry waits, or ends with an exception.
  predicate Waited(w: World, x: Id) {
    x in Left(w.retry) * May(w.retry) * w.kids
  }

  function ResetOne(w: World, x: Id): World
    requires w.retry.Over?
  {
    w.(rows := w.rows[x := Pending], kids := w.kids - {x},
       retry := Over(w.retry.left - {x}, w.retry.may - {x}, NoPause))
  }

  function RetryStep(w: World, a: Action): World {
    if !w.retry.Over? then w
    else if a.ResetRow? && a.x in w.retry.left && a.x in w.rows
      && (if w.retry.pause.At? then w.retry.pause.x == a.x else !Waited(w, a.x)) then ResetOne(w, a.x)
    else if a.Park? && Busy(w) && Waited(w, a.x) then w.(retry := w.retry.(pause := At(a.x)))
    else if a.Drop? && (if Busy(w) then Waited(w, a.x) else w.retry.pause == At(a.x)) then w.(retry := Idle)
    else if a.RetryDone? && Busy(w) && w.retry.left == {} then
      w.(state := FlowRecovering, runner := SpawnIfNone(w.runner), retry := Idle)
    else w
  }

  // A cancellation pauses at a live child task, or goes on to its end.
  predicate Pauses(w: World, at: Pause) {
    at.At? ==> at.x in w.kids
  }

  predicate MaySnapshot(w: World, now: set<Id>, at: Pause) {
    w.cancel.stopping && !w.runner.Ending? && Pauses(w, at) && now <= Unfinished(w.rows)
  }

  // The unfinished rows are read, and those in `now` marked before the first pause.
  function SnapshotStep(w: World, now: set<Id>, at: Pause): World {
    var marked := w.(rows := Update(w.rows, now, Cancelled));
    if at.At? then marked.(cancel := Cancellation(false, true, w.cancel.marks + (Unfinished(w.rows) - now)))
    else if now == Unfinished(w.rows) then
      marked.(state := FlowCancelled, cancel := w.cancel.(stopping := false))
    else w
  }

  // It goes on behind a pause.
  function SweepStep(w: World, now: set<Id>, at: Pause): World {
    var marked := w.(rows := Update(w.rows, now, Cancelled));
    if at.At? then marked.(cancel := w.cancel.(marks := w.cancel.marks - now))
    else if now == w.cancel.marks then
      marked.(state := FlowCancelled, cancel := w.cancel.(sweeping := false, marks := {}))
    else w
  }

  function CancelStep(w: World, a: Action): World {
    if a.Cancel? && !w.state.Terminal() then
      w.(state := FlowCancelling, runner := if w.runner.NoRunner? then NoRunner else Ending,
         cancel := w.cancel.(stopping := true))
    else if a.Stopped? && w.runner.Ending? then w.(runner := NoRunner)
    else if a.Snapshot? && MaySnapshot(w, a.now, a.at) then SnapshotStep(w, a.now, a.at)
    else if a.Sweeping? && w.cancel.sweeping && Pauses(w, a.at) && a.now <= w.cancel.marks then
      SweepStep(w, a.now, a.at)
    else w
  }

  ghost function OperatorStep(p: Plan, w: World, a: Action): World {
    if a.Resume? && w.state.FlowBlocked? then
      w.(rows := ResetRows(w.rows, InState(w.rows, Interrupted)), state := FlowRecovering,
         runner := SpawnIfNone(w.runner), ops := w.ops + 1)
    else if a.Retry? && a.x in w.rows && w.retry.Idle? then
      w.(retry := Over(DownstreamOf(p.deps, a.x), w.kids, NoPause), ops := w.ops + 1)
    else if a.ChildEnds? then w.(kids := w.kids - {a.x})
    else CancelStep(w, a)
  }

  function CrashStep(w: World): World {
    w.(up := false, runner := NoRunner, retry := Idle, cancel := NONE)
  }

  // A crash between the marks of a cancellation.
  function CrashSweeping(w: World, now: set<Id>): World {
    if (w.cancel.sweeping && now <= w.cancel.marks) || MaySnapshot(w, now, NoPause) then
      CrashStep(w.(rows := Update(w.rows, now, Cancelled)))
    else CrashStep(w)
  }

  predicate Recovers(w: World) {
    !w.state.Terminal() && !w.state.FlowBlocked? && !w.state.FlowCancelling?
  }

  function RecoverStep(p: Plan, w: World): World {
    if w.state.FlowCancelling? then w.(up := true, cancel := NONE.(stopping := true))
    else if !Recovers(w) then w.(up := true)
    else
      var hit := FoundRunning(w.rows, p.windows);
      if hit != {} then w.(up := true, rows := Update(w.rows, hit, Interrupted), state := FlowBlocked)
      else w.(up := true, runner := Spawned(true))
  }

  // MarkHit: a recovery that crashes again has marked this row.
  function DownStep(p: Plan, w: World, a: Action): World {
    if a.Recover? then RecoverStep(p, w)
    else if a.MarkHit? && Recovers(w) && a.x in FoundRunning(w.rows, p.windows) then
      w.(rows := w.rows[a.x := Interrupted])
    else w
  }

  predicate OfRunner(a: Action) {
    a.Begin? || a.Round? || a.Start? || a.Track? || a.Bind? || a.Finish? || a.Gathered? || a.GatherFailed?
  }

  predicate OfRetry(a: Action) {
    a.ResetRow? || a.Park? || a.Drop? || a.RetryDone?
  }

  predicate Crashes(a: Action) {
    a.Crash? || a.SweepCrash?
  }

  ghost function Step(p: Plan, w: World, a: Action): World {
    if a.Crash? then CrashStep(w)
    else if !w.up then DownStep(p, w, a)
    else if OfRetry(a) then RetryStep(w, a)
    else if Busy(w) then w
    else if OfRunner(a) then RunnerStep(p, w, a)
    else if a.SweepCrash? then CrashSweeping(w, a.now)
    else OperatorStep(p, w, a)
  }

  ghost function Run(p: Plan, w: World, actions: seq<Action>): World
    decreases |actions|
  {
    if actions == [] then w else Run(p, Step(p, w, actions[0]), actions[1..])
  }

  lemma {:induction false} RunConcat(p: Plan, w: World, s: seq<Action>, t: seq<Action>)
    ensures Run(p, w, s + t) == Run(p, Run(p, w, s), t)
    decreases |s|
  {
    if s == [] {
      assert s + t == t;
    } else {
      assert (s + t)[0] == s[0] && (s + t)[1..] == s[1..] + t;
      RunConcat(p, Step(p, w, s[0]), s[1..], t);
    }
  }

  lemma RunCons(p: Plan, w: World, a: Action, rest: seq<Action>)
    ensures Run(p, w, [a] + rest) == Run(p, Step(p, w, a), rest)
  {
    assert ([a] + rest)[1..] == rest;
  }

  lemma RunOne(p: Plan, w: World, a: Action)
    ensures Run(p, w, [a]) == Step(p, w, a)
  {
    RunCons(p, w, a, []);
    assert [a] + [] == [a];
  }

  lemma RunSnoc(p: Plan, w: World, s: seq<Action>, a: Action)
    ensures Run(p, w, s + [a]) == Step(p, Run(p, w, s), a)
  {
    RunConcat(p, w, s, [a]);
    RunOne(p, Run(p, w, s), a);
  }

  // ------------------------------------------------------------------ No run starts a doomed step

  /** Nothing that lies on or depends on a cycle is completed, believed completed, about to start, or was started. */
  ghost predicate NoneDoomed(p: Plan, w: World) {
    && Sound(p.deps, w.rows)
    && (w.runner.Going? ==> forall x {:trigger Doomed(p.deps, x)} ::
          x in w.runner.results || x in w.runner.active || x in w.runner.begun ==> !Doomed(p.deps, x))
    && (forall x {:trigger Doomed(p.deps, x)} :: x in w.starts && w.starts[x] > 0 ==> !Doomed(p.deps, x))
  }

  lemma NoneDoomedRound(p: Plan, w: World)
    requires NoneDoomed(p, w) && w.runner.Going?
    ensures NoneDoomed(p, NextRound(p, w))
  {
    forall x | x in ReadyOf(p, w.runner) ensures !Doomed(p.deps, x) {
      FinishedStaysSound(p.deps, w.runner.results, x);
    }
  }

  lemma NoneDoomedStep(p: Plan, w: World, a: Action)
    requires NoneDoomed(p, w)
    ensures NoneDoomed(p, Step(p, w, a))
  {
    if w.up && !Busy(w) && a.Round? && w.runner.Going? {
      NoneDoomedRound(p, w);
    } else if w.up && !Busy(w) && a.Begin? && w.runner.Spawned? {
      NoneDoomedRound(p, Enter(w));
    } else if OfRunner(a) && !a.Round? && !a.Begin? {
      NoneDoomedWork(p, w, a);
    } else if !OfRunner(a) {
      NoneDoomedOther(p, w, a);
    }
  }

  lemma NoneDoomedWork(p: Plan, w: World, a: Action)
    requires NoneDoomed(p, w) && OfRunner(a) && !a.Round? && !a.Begin?
    ensures NoneDoomed(p, RunnerStep(p, w, a))
  {
  }

  lemma NoneDoomedLess(p: Plan, w: World, after: World)
    requires NoneDoomed(p, w) && Withdraws(w, after)
    ensures NoneDoomed(p, after)
  {
  }

  // Others than the runner complete no row, make none running, and leave the runner or end it.
  predicate Withdraws(w: World, after: World) {
    && after.starts == w.starts && (after.runner == w.runner || !after.runner.Going?)
    && forall x :: x in after.rows && after.rows[x] in {Completed, Running} ==>
         x in w.rows && w.rows[x] == after.rows[x]
  }

  lemma OthersWithdraw(p: Plan, w: World, a: Action)
    requires !OfRunner(a)
    ensures Withdraws(w, Step(p, w, a))
  {
    if w.up && OfRetry(a) {
      assert Withdraws(w, RetryStep(w, a));
    }
  }

  lemma NoneDoomedOther(p: Plan, w: World, a: Action)
    requires NoneDoomed(p, w) && !OfRunner(a)
    ensures NoneDoomed(p, Step(p, w, a))
  {
    OthersWithdraw(p, w, a);
    NoneDoomedLess(p, w, Step(p, w, a));
  }

  lemma {:induction false} NoneDoomedRun(p: Plan, w: World, actions: seq<Action>)
    requires NoneDoomed(p, w)
    ensures NoneDoomed(p, Run(p, w, actions))
    decreases |actions|
  {
    if actions != [] {
      NoneDoomedStep(p, w, actions[0]);
      NoneDoomedRun(p, Step(p, w, actions[0]), actions[1..]);
    }
  }

  // ------------------------------------------------------------------ The shape every run keeps

  predicate RunnerShaped(p: Plan, rows: Rows, r: Runner)
    requires r.Going?
  {
    && r.results + r.todo == rows.Keys && r.results !! r.todo
    && r.begun <= r.active <= r.todo && r.good <= r.begun && r.broken <= r.begun && r.good !! r.broken
    && (forall x :: x in r.active ==> x in p.deps && p.deps[x] <= r.results)
    && (forall x :: x in rows ==> !rows[x].Interrupted?)
  }

  predicate Shaped(p: Plan, w: World) {
    && Known(p.deps) && w.rows.Keys == p.deps.Keys && w.starts.Keys == p.deps.Keys
    && (!w.up ==> w.runner.NoRunner? && w.retry.Idle? && w.cancel == NONE)
    && (w.state.FlowBlocked? ==> w.runner.NoRunner?)
    && (w.retry.Over? ==> w.retry.left <= w.rows.Keys && (w.retry.pause.At? ==> w.retry.pause.x in w.retry.left))
    && w.cancel.marks <= w.rows.Keys && (w.cancel.marks != {} ==> w.cancel.sweeping)
    && (forall x :: x in w.kids ==> x in w.rows && x !in p.windows && w.rows[x] != Completed)
    && (w.runner.Going? ==> RunnerShaped(p, w.rows, w.runner))
  }

  lemma RoundIsShaped(p: Plan, w: World)
    requires Shaped(p, w) && w.up && w.runner.Going? && w.runner.active == {}
    ensures Shaped(p, NextRound(p, w))
  {
  }

  lemma BeginIsShaped(p: Plan, w: World)
    requires Shaped(p, w) && w.up && w.runner.Spawned?
    ensures Shaped(p, BeginRun(p, w))
  {
    var results := InState(w.rows, Completed);
    if !AnyIn(w.rows, w.rows.Keys - results, {Failed, Interrupted}) {
      forall x | x in w.rows ensures !w.rows[x].Interrupted? {
        assert w.rows[x] in {Failed, Interrupted} ==> x !in w.rows.Keys - results;
      }
    }
  }

  lemma StartIsShaped(p: Plan, w: World, a: Action)
    requires Shaped(p, w) && w.up && (a.Start? || a.Track? || a.Bind?)
    ensures Shaped(p, RunnerStep(p, w, a))
  {
  }

  lemma EndIsShaped(p: Plan, w: World, a: Action)
    requires Shaped(p, w) && w.up && (a.Finish? || a.Gathered? || a.GatherFailed?)
    ensures Shaped(p, RunnerStep(p, w, a))
  {
  }

  lemma RetryIsShaped(p: Plan, w: World, a: Action)
    requires Shaped(p, w) && w.up
    ensures Shaped(p, RetryStep(w, a))
  {
  }

  lemma SnapshotIsShaped(p: Plan, w: World, now: set<Id>, at: Pause)
    requires Shaped(p, w) && w.up
    ensures Shaped(p, SnapshotStep(w, now, at))
  {
  }

  lemma SweepIsShaped(p: Plan, w: World, now: set<Id>, at: Pause)
    requires Shaped(p, w) && w.up
    ensures Shaped(p, SweepStep(w, now, at))
  {
  }

  lemma CancelIsShaped(p: Plan, w: World, a: Action)
    requires Shaped(p, w) && w.up
    ensures Shaped(p, CancelStep(w, a))
  {
    if a.Snapshot? {
      SnapshotIsShaped(p, w, a.now, a.at);
    } else if a.Sweeping? {
      SweepIsShaped(p, w, a.now, a.at);
    }
  }

  lemma OtherIsShaped(p: Plan, w: World, a: Action)
    requires Shaped(p, w) && !(w.up && (OfRunner(a) || OfRetry(a)))
    ensures Shaped(p, Step(p, w, a))
  {
    if w.up && !Crashes(a) {
      CancelIsShaped(p, w, a);
    }
  }

  lemma ShapedStep(p: Plan, w: World, a: Action)
    requires Shaped(p, w)
    ensures Shaped(p, Step(p, w, a))
  {
    if !w.up || !(OfRunner(a) || OfRetry(a)) {
      OtherIsShaped(p, w, a);
    } else if OfRetry(a) {
      RetryIsShaped(p, w, a);
    } else if a.Begin? && w.runner.Spawned? {
      BeginIsShaped(p, w);
    } else if a.Round? && w.runner.Going? && w.runner.active == {} {
      RoundIsShaped(p, w);
    } else if a.Start? || a.Track? || a.Bind? {
      StartIsShaped(p, w, a);
    } else if !a.Begin? && !a.Round? {
      EndIsShaped(p, w, a);
    }
  }

  lemma {:induction false} ShapedRun(p: Plan, w: World, actions: seq<Action>)
    requires Shaped(p, w)
    ensures Shaped(p, Run(p, w, actions))
    decreases |actions|
  {
    if actions != [] {
      ShapedStep(p, w, actions[0]);
      ShapedRun(p, Step(p, w, actions[0]), actions[1..]);
    }
  }

  // ------------------------------------------------------------------ Whole operator actions

  lemma {:induction false} Listing(some: set<Id>) returns (order: seq<Id>)
    ensures Lists(order, some)
    decreases |some|
  {
    order := [];
    if x :| x in some {
      var rest := Listing(some - {x});
      order := [x] + rest;
      forall y | y in some ensures y in order {
        assert y != x ==> y in rest;
      }
    }
  }

  // The rows in this order; at those with a live child task the retry waits.
  function Resets(order: seq<Id>, live: set<Id>): seq<Action> {
    if order == [] then []
    else (if order[0] in live then [Park(order[0])] else []) + ([ResetRow(order[0])] + Resets(order[1..], live))
  }

  // A whole retry that nothing interferes with.
  function RetryActions(target: Id, order: seq<Id>, live: set<Id>): seq<Action> {
    [Retry(target)] + Resets(order, live) + [RetryDone]
  }

  function ResetSome(w: World, some: set<Id>): World
    requires w.retry.Over?
  {
    w.(rows := ResetRows(w.rows, some), kids := w.kids - some,
       retry := Over(w.retry.left - some, w.retry.may - some, NoPause))
  }

  lemma ResetsOne(p: Plan, w: World, x: Id, live: set<Id>)
    requires w.up && Busy(w) && x in w.retry.left && x in w.rows && (x in live <==> Waited(w, x))
    ensures Run(p, w, (if x in live then [Park(x)] else []) + [ResetRow(x)]) == ResetOne(w, x)
  {
    if x in live {
      RunCons(p, w, Park(x), [ResetRow(x)]);
      RunOne(p, Step(p, w, Park(x)), ResetRow(x));
    } else {
      assert [] + [ResetRow(x)] == [ResetRow(x)];
      RunOne(p, w, ResetRow(x));
    }
  }

  lemma {:induction false} ResetsSome(p: Plan, w: World, order: seq<Id>, some: set<Id>, live: set<Id>)
    requires w.up && Busy(w) && Lists(order, some) && some <= w.retry.left <= w.rows.Keys
    requires forall x :: x in some ==> (x in live <==> Waited(w, x))
    ensures Run(p, w, Resets(order, live)) == ResetSome(w, some)
    decreases |order|
  {
    if order == [] {
      assert some == {};
      assert ResetRows(w.rows, {}) == w.rows;
      assert ResetSome(w, some) == w;
    } else {
      var x := order[0];
      var park := if x in live then [Park(x)] else [];
      var next := ResetOne(w, x);
      ResetsOne(p, w, x, live);
      assert park + ([ResetRow(x)] + Resets(order[1..], live)) == (park + [ResetRow(x)]) + Resets(order[1..], live);
      RunConcat(p, w, park + [ResetRow(x)], Resets(order[1..], live));
      ListsTail(order, some);
      ResetsSome(p, next, order[1..], some - {x}, live);
      ResetsRest(w, x, some);
    }
  }

  lemma ResetsRest(w: World, x: Id, some: set<Id>)
    requires w.retry.Over? && x in some && x in w.rows
    ensures ResetSome(ResetOne(w, x), some - {x}) == ResetSome(w, some)
  {
    assert ResetRows(w.rows[x := Pending], some - {x}) == ResetRows(w.rows, some);
    assert w.kids - {x} - (some - {x}) == w.kids - some;
    assert w.retry.left - {x} - (some - {x}) == w.retry.left - some;
    assert w.retry.may - {x} - (some - {x}) == w.retry.may - some;
  }

  lemma ListsTail(order: seq<Id>, reset: set<Id>)
    requires Lists(order, reset) && order != []
    ensures Lists(order[1..], reset - {order[0]})
  {
    forall x | x in reset - {order[0]} ensures x in order[1..] {
      var i :| 0 <= i < |order| && order[i] == x;
      assert order[1..][i - 1] == x;
    }
    assert forall i :: 0 <= i < |order[1..]| ==> order[1..][i] == order[i + 1];
  }

  /** A retry that is left alone, whatever the order of its rows: exactly the downstream rows are reset, and a runner is
      there, or the one that a cancellation has stopped. */
  lemma RetryResetsDownstream(p: Plan, w: World, target: Id, order: seq<Id>)
    requires Shaped(p, w) && w.up && w.retry.Idle? && target in w.rows && Lists(order, DownstreamOf(p.deps, target))
    ensures var reset := DownstreamOf(p.deps, target);
      var after := Run(p, w, RetryActions(target, order, w.kids));
      && after.rows.Keys == w.rows.Keys
      && (forall x :: x in w.rows ==> after.rows[x] == if x in reset then Pending else w.rows[x])
      && after == w.(rows := after.rows, kids := w.kids - reset, state := FlowRecovering,
                     runner := if w.runner == NoRunner then Spawned(true) else w.runner, ops := w.ops + 1)
  {
    var reset := DownstreamOf(p.deps, target);
    var next := Step(p, w, Retry(target));
    RunConcat(p, w, [Retry(target)] + Resets(order, w.kids), [RetryDone]);
    RunCons(p, w, Retry(target), Resets(order, w.kids));
    ResetsSome(p, next, order, reset, w.kids);
    assert reset - reset == {};
    RunOne(p, Run(p, next, Resets(order, w.kids)), RetryDone);
  }

  /** Each row keeps its state if that is completed or failed, and is cancelled otherwise. */
  predicate CancelledRows(before: Rows, after: Rows) {
    && after.Keys == before.Keys
    && forall x :: x in before ==>
         after[x] == if before[x] == Completed || before[x] == Failed then before[x] else Cancelled
  }

  /** A cancellation that is left alone marks exactly the unfinished rows, and no runner is there. */
  lemma CancelMarksUnfinished(p: Plan, w: World)
    requires w.up && !Busy(w) && !w.state.Terminal() && w.cancel == NONE
    ensures var after := Run(p, w, [Cancel, Stopped, Snapshot(Unfinished(w.rows), NoPause)]);
      && CancelledRows(w.rows, after.rows)
      && after == w.(rows := after.rows, state := FlowCancelled, runner := NoRunner)
  {
    var marks := Snapshot(Unfinished(w.rows), NoPause);
    var first := Step(p, w, Cancel);
    RunCons(p, w, Cancel, [Stopped, marks]);
    RunCons(p, first, Stopped, [marks]);
    RunOne(p, Step(p, first, Stopped), marks);
  }

  /** A cancellation that a crash has interrupted is done again at the restart. */
  lemma RestartCancels(p: Plan, w: World)
    requires w.up && w.state == FlowCancelling
    ensures var after := Run(p, w, [Crash, Recover, Snapshot(Unfinished(w.rows), NoPause)]);
      && CancelledRows(w.rows, after.rows)
      && after == w.(rows := after.rows, state := FlowCancelled, runner := NoRunner, retry := Idle, cancel := NONE)
  {
    var marks := Snapshot(Unfinished(w.rows), NoPause);
    var down := Step(p, w, Crash);
    RunCons(p, w, Crash, [Recover, marks]);
    RunCons(p, down, Recover, [marks]);
    RunOne(p, Step(p, down, Recover), marks);
  }

  /** A restart marks exactly the running Windows steps; the workflow is blocked if there is one and gets a runner if
      there is none. */
  lemma RestartInterrupts(p: Plan, w: World)
    requires w.up && !w.state.Terminal() && !w.state.FlowBlocked? && !w.state.FlowCancelling?
    ensures var after := Run(p, w, [Crash, Recover]);
      var hit := exists x :: x in w.rows && x in p.windows && w.rows[x] == Running;
      && after.rows.Keys == w.rows.Keys
      && (forall x :: x in w.rows ==>
            after.rows[x] == if x in p.windows && w.rows[x] == Running then Interrupted else w.rows[x])
      && after == w.(rows := after.rows, retry := Idle, cancel := NONE,
                     state := if hit then FlowBlocked else w.state,
                     runner := if hit then NoRunner else Spawned(true))
  {
    var down := Step(p, w, Crash);
    RunCons(p, w, Crash, [Recover]);
    RunOne(p, down, Recover);
    if exists x :: x in w.rows && x in p.windows && w.rows[x] == Running {
      var x :| x in w.rows && x in p.windows && w.rows[x] == Running;
      assert x in FoundRunning(w.rows, p.windows);
    } else {
      assert FoundRunning(w.rows, p.windows) == {};
    }
  }

  lemma DownstreamIs(g: Graph, target: Id, reset: set<Id>)
    requires target in reset && reset <= g.Keys
    requires forall y, d :: y in g && d in g[y] && d in reset ==> y in reset
    requires forall y :: y in reset && y != target ==> target in g[y]
    ensures DownstreamOf(g, target) == reset
  {
    ReachesSelf(g, target);
    forall y | y in reset && y != target ensures Reaches(g, y, target) {
      ReachesVia(g, y, target, target);
    }
    forall x | x in DownstreamOf(g, target) ensures x in reset {
      var path :| Joins(g, path, x, target);
      ClosedContains(g, target, reset, path, x);
    }
  }
}
