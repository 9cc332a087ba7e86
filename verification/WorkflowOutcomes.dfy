/** What single sections of the runner, a restart and the operator do to rows, runner and child tasks, row by row, in
    any state of the run model: also where a cancellation waits, or a crash falls between two writes. */
module WorkflowOutcomes {
  import opened WorkflowGraph
  import opened WorkflowRows
  import opened WorkflowRuns

  /** Row x ends in this state, all others as they were. */
  predicate OnlyRow(before: Rows, after: Rows, x: Id, state: RowState) {
    && after.Keys == before.Keys && x in before && after[x] == state
    && forall y :: y in before && y != x ==> after[y] == before[y]
  }

  // Nobody else is between two awaits, and the runner has not begun this step of its gather.
  predicate AboutToStart(w: World, x: Id) {
    w.up && !Busy(w) && w.runner.Going? && x in w.runner.active && x !in w.runner.begun && x in w.rows
  }

  // The step has begun and not ended.
  predicate InGather(w: World, x: Id) {
    && w.up && !Busy(w) && w.runner.Going? && x in w.rows
    && x in w.runner.begun && x !in w.runner.good && x !in w.runner.broken
  }

  /** A step whose row is completed meanwhile is taken as done; a Windows step whose row is interrupted fails; any other
      runs, which for a Windows step is one more invocation. */
  lemma StartOutcome(p: Plan, w: World, x: Id)
    requires AboutToStart(w, x) && x in w.starts
    ensures var t := Step(p, w, Start(x));
      && t.runner.Going?
      && t == w.(rows := t.rows, starts := t.starts, runner := w.runner.(begun := w.runner.begun + {x},
                 good := t.runner.good, broken := t.runner.broken))
      && (if w.rows[x] == Completed then
            && t.rows == w.rows && t.starts == w.starts
            && t.runner.good == w.runner.good + {x} && t.runner.broken == w.runner.broken
          else if w.rows[x] == Interrupted && x in p.windows then
            && OnlyRow(w.rows, t.rows, x, Failed) && t.starts == w.starts
            && t.runner.good == w.runner.good && t.runner.broken == w.runner.broken + {x}
          else
            && OnlyRow(w.rows, t.rows, x, Running)
            && t.starts == (if x in p.windows then w.starts[x := w.starts[x] + 1] else w.starts)
            && t.runner.good == w.runner.good && t.runner.broken == w.runner.broken)
  {
  }

  /** A step on another node that has no child task gets one, which is live with its row running. */
  lemma ChildOutcome(p: Plan, w: World, x: Id)
    requires AboutToStart(w, x) && x !in p.windows && x !in w.kids && x !in May(w.retry)
    requires x !in w.runner.good && x !in w.runner.broken
    ensures var t := Run(p, w, [Track(x)] + ([Bind(x)] + []));
      && OnlyRow(w.rows, t.rows, x, Running)
      && t == w.(rows := t.rows, kids := w.kids + {x}, runner := w.runner.(begun := w.runner.begun + {x}))
  {
    var tracked := Step(p, w, Track(x));
    RunCons(p, w, Track(x), [Bind(x)] + []);
    RunCons(p, tracked, Bind(x), []);
  }

  /** One that has a live child task goes on with it. */
  lemma ChildKept(p: Plan, w: World, x: Id)
    requires InGather(w, x) && x in w.kids
    ensures Step(p, w, Bind(x)) == w
  {
  }

  /** A step that ends: completed, and with it its child task, or failed. */
  lemma FinishOutcome(p: Plan, w: World, x: Id, ok: bool)
    requires InGather(w, x)
    ensures var t := Step(p, w, Finish(x, ok));
      && OnlyRow(w.rows, t.rows, x, if ok then Completed else Failed)
      && (if ok then t == w.(rows := t.rows, runner := w.runner.(good := w.runner.good + {x}), kids := w.kids - {x})
          else t == w.(rows := t.rows, runner := w.runner.(broken := w.runner.broken + {x})))
  {
  }

  /** A gather with a failed step ends the runner: that row is failed, whatever has happened to it meanwhile, and so is
      the workflow. */
  lemma FailedGatherOutcome(p: Plan, w: World, x: Id)
    requires w.up && !Busy(w) && w.runner.Going? && GatherOver(w.runner) && x in w.runner.broken && x in w.rows
    ensures var t := Step(p, w, GatherFailed(x));
      OnlyRow(w.rows, t.rows, x, Failed) && t == w.(rows := t.rows, state := FlowFailed, runner := NoRunner)
  {
  }

  lemma StoppedRunner(p: Plan, w: World)
    requires w.up && !Busy(w) && !w.state.Terminal() && w.cancel == NONE
    ensures Step(p, Step(p, w, Cancel), Stopped) ==
      w.(state := FlowCancelling, runner := NoRunner, cancel := Cancellation(true, false, {}))
  {
  }

  lemma SweptBehindPause(p: Plan, w: World, now: set<Id>, x: Id)
    requires w.up && !Busy(w) && w.runner == NoRunner && w.cancel == Cancellation(true, false, {}) && x in w.kids
    requires now <= Unfinished(w.rows)
    ensures var t := Step(p, Step(p, w, Snapshot(now, At(x))), Sweeping(Unfinished(w.rows) - now, NoPause));
      CancelledRows(w.rows, t.rows) && t == w.(rows := t.rows, state := FlowCancelled, cancel := NONE)
  {
    var rest := Unfinished(w.rows) - now;
    var third := Step(p, w, Snapshot(now, At(x)));
    assert third.cancel.marks == rest;
    assert third == w.(rows := Update(w.rows, now, Cancelled), cancel := Cancellation(false, true, rest));
    assert Update(Update(w.rows, now, Cancelled), rest, Cancelled) == Update(w.rows, Unfinished(w.rows), Cancelled);
  }

  /** A cancellation that waits for a child task marks the same rows as one that does not wait. */
  lemma WaitingCancelOutcome(p: Plan, w: World, now: set<Id>, x: Id)
    requires w.up && !Busy(w) && !w.state.Terminal() && w.cancel == NONE && x in w.kids && now <= Unfinished(w.rows)
    ensures var rest := Unfinished(w.rows) - now;
      var t := Run(p, w, [Cancel] + ([Stopped] + ([Snapshot(now, At(x))] + ([Sweeping(rest, NoPause)] + []))));
      && CancelledRows(w.rows, t.rows)
      && t == w.(rows := t.rows, state := FlowCancelled, runner := NoRunner)
  {
    var rest := Unfinished(w.rows) - now;
    StoppedRunner(p, w);
    var first := Step(p, w, Cancel);
    var second := Step(p, first, Stopped);
    SweptBehindPause(p, second, now, x);
    var third := Step(p, second, Snapshot(now, At(x)));
    RunCons(p, third, Sweeping(rest, NoPause), []);
    RunCons(p, second, Snapshot(now, At(x)), [Sweeping(rest, NoPause)] + []);
    RunCons(p, first, Stopped, [Snapshot(now, At(x))] + ([Sweeping(rest, NoPause)] + []));
    RunCons(p, w, Cancel, [Stopped] + ([Snapshot(now, At(x))] + ([Sweeping(rest, NoPause)] + [])));
  }

  /** No cancellation is reported before it has marked what it has to mark: the unfinished rows if it has not waited,
      the rows left to it behind a wait. */
  lemma CancelledWhenMarked(p: Plan, w: World, a: Action)
    requires w.state != FlowCancelled && Step(p, w, a).state == FlowCancelled
    ensures var t := Step(p, w, a);
      || (a.Snapshot? && w.cancel.stopping && CancelledRows(w.rows, t.rows))
      || (a.Sweeping? && w.cancel.sweeping && forall x :: x in w.cancel.marks && x in w.rows ==> t.rows[x] == Cancelled)
  {
  }

  /** It gives way only while a child task is being cancelled. */
  lemma CancelWaitsAtChild(p: Plan, w: World, now: set<Id>, x: Id)
    requires Step(p, w, Snapshot(now, At(x))) != w || Step(p, w, Sweeping(now, At(x))) != w
    ensures x in w.kids
  {
  }

  /** A resume makes exactly the interrupted rows pending and leaves a runner; a workflow that is not blocked is left
      alone. */
  lemma ResumeOutcome(p: Plan, w: World)
    requires w.up && !Busy(w)
    ensures var t := Step(p, w, Resume);
      if w.state != FlowBlocked then t == w
      else
        && t.rows.Keys == w.rows.Keys
        && (forall x :: x in w.rows ==> t.rows[x] == if w.rows[x] == Interrupted then Pending else w.rows[x])
        && t == w.(rows := t.rows, state := FlowRecovering, ops := w.ops + 1,
                   runner := if w.runner == NoRunner then Spawned(true) else w.runner)
  {
  }

  lemma ChildEndsOutcome(p: Plan, w: World, x: Id)
    requires w.up && !Busy(w)
    ensures Step(p, w, ChildEnds(x)) == w.(kids := w.kids - {x})
  {
  }

  /** A retry ends with an exception only where it is cancelling a child task. */
  lemma DropOnlyAtChild(p: Plan, w: World, x: Id)
    requires w.up && Step(p, w, Drop(x)) != w
    ensures w.retry.Over? && Step(p, w, Drop(x)) == w.(retry := Idle)
    ensures w.retry.pause == At(x) || (w.retry.pause == NoPause && x in w.kids && x in w.retry.left && x in w.retry.may)
  {
  }

  /** A crash between the marks of a cancellation leaves exactly those rows marked that it had reached. */
  lemma CrashInCancelOutcome(p: Plan, w: World, now: set<Id>)
    requires w.up && !Busy(w) && w.cancel.stopping && w.runner != Ending && now <= Unfinished(w.rows)
    ensures var t := Step(p, w, SweepCrash(now));
      && t.rows.Keys == w.rows.Keys
      && (forall x :: x in w.rows ==> t.rows[x] == if x in now then Cancelled else w.rows[x])
      && t == w.(rows := t.rows, up := false, runner := NoRunner, retry := Idle, cancel := NONE)
  {
  }

  /** A recovery that crashes again can have marked any running Windows step, and no other row. */
  lemma CrashInRecoveryOutcome(p: Plan, w: World, x: Id)
    requires !w.up
    ensures var t := Step(p, w, MarkHit(x));
      if Recovers(w) && x in w.rows && x in p.windows && w.rows[x] == Running
      then OnlyRow(w.rows, t.rows, x, Interrupted) && t == w.(rows := t.rows)
      else t == w
  {
  }
}
